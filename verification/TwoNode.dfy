/**
 Two nodes that edited the same path differently, under the "size" strategy. Once the
 holder of the larger version has recorded it, every interleaving that falls silent
 leaves both disks with the larger version, and every interleaving falls silent within
 a fixed number of steps. If the other node has no publication outstanding, its record
 names the larger version too. Module TwoNodeRaces shows both conditions to be exact.
 */
module TwoNode {
  import opened Prelude
  import opened GoTime
  import opened FileSync
  import opened Gossip
  import opened Work

  /** The other of two nodes. */
  function Opposite(n: Peer): Peer {
    if n == 0 then 1 else 0
  }

  /** `lo` holds the small version and the other node, `hi`, the large one. */
  datatype Duel = Duel(path: Path, lo: Peer, small: Content, large: Content) {
    function Hi(): Peer {
      Opposite(lo)
    }
  }

  /** The checksums tell the versions apart; nothing else is asked of the hash. */
  ghost predicate Fair(w: World, d: Duel) {
    && d.lo < 2 && w.strategies == [BySize, BySize] && IsFileInWatchedPaths(d.path)
    && |d.small| < |d.large|
    && w.hash(d.small) != w.hash(d.large) && w.hash(d.small) != "" && w.hash(d.large) != ""
  }

  predicate Names(w: World, content: Content, checksum: string, size: int) {
    checksum == w.hash(content) && size == |content|
  }

  predicate Recorded(w: World, path: Path, content: Content, node: Node) {
    path in node.records && Names(w, content, node.records[path].checksum, node.records[path].size)
  }

  predicate OnDisk(path: Path, content: Content, node: Node) {
    path in node.disk && node.disk[path].content == content
  }

  // ---- What can be in transit --------------------------------------------

  ghost predicate FairPacket(w: World, d: Duel, packet: Packet) {
    packet.msg.path == d.path ==>
      && packet.to < 2 && packet.msg.from < 2 && packet.msg.from != packet.to
      && (packet.msg.kind.Event? ==>
            || Names(w, d.large, packet.msg.checksum, packet.msg.size)
            || (packet.to == d.Hi() && Names(w, d.small, packet.msg.checksum, packet.msg.size)))
      && (packet.msg.kind.Request? ==> packet.to == d.Hi())
      && (packet.msg.kind.Response? ==> packet.to == d.lo && packet.msg.data == d.large)
  }

  ghost predicate FairJob(w: World, d: Duel, s: System, job: Job)
    requires |s.nodes| == 2 && d.lo < 2
  {
    job.task.event.path == d.path ==>
      var event := job.task.event;
      match job.task
      case Recording(_) =>
        || (job.owner == d.lo && Names(w, d.small, event.checksum, event.size))
        || (job.owner < 2 && Names(w, d.large, event.checksum, event.size)
            && OnDisk(d.path, d.large, s.nodes[job.owner]))
      case Wanted(_) => job.owner == d.lo
      case _ =>
        || (job.owner == d.lo && Names(w, d.large, event.checksum, event.size))
        || (job.owner == d.Hi() && Names(w, d.small, event.checksum, event.size))
  }

  /** The large version is on its way to `lo`. */
  ghost predicate Fetched(d: Duel, s: System)
    requires |s.nodes| == 2
  {
    || Watch(d.path, false) in s.nodes[d.Hi()].pending
    || (exists packet :: packet in s.net && packet.msg.path == d.path
                         && ((packet.to == d.lo && (packet.msg.kind.Event? || packet.msg.kind.Response?))
                             || (packet.to == d.Hi() && packet.msg.kind.Request?)))
    || (exists job :: job in s.jobs && job.task.event.path == d.path && job.owner == d.lo && !job.task.Recording?)
  }

  /**
   `hi` holds and has recorded the large version, `lo` holds one of the two versions, and everything in transit
   fits.
   */
  ghost predicate Lawful(w: World, d: Duel, s: System) {
    && Fair(w, d) && |s.nodes| == 2
    && (var hi := s.nodes[d.Hi()];
        OnDisk(d.path, d.large, hi) && Recorded(w, d.path, d.large, hi) && Watch(d.path, true) !in hi.pending)
    && (var lo := s.nodes[d.lo];
        && (OnDisk(d.path, d.small, lo) || OnDisk(d.path, d.large, lo))
        && (d.path in lo.records ==>
              || Recorded(w, d.path, d.small, lo)
              || (Recorded(w, d.path, d.large, lo) && OnDisk(d.path, d.large, lo)))
        && Watch(d.path, true) !in lo.pending)
    && (forall packet :: packet in s.net ==> FairPacket(w, d, packet))
    && (forall job :: job in s.jobs ==> FairJob(w, d, s, job))
  }

  /** The invariant for disks. */
  ghost predicate CatchingUp(w: World, d: Duel, s: System) {
    Lawful(w, d, s) && (OnDisk(d.path, d.large, s.nodes[d.lo]) || Fetched(d, s))
  }

  ghost predicate RecordUnderway(d: Duel, s: System) {
    exists job :: job in s.jobs && job.owner == d.lo && job.task.event.path == d.path && job.task.Recording?
  }

  /** `lo` will not announce the small version again. */
  ghost predicate Woken(d: Duel, s: System)
    requires |s.nodes| == 2 && d.lo < 2
  {
    Watch(d.path, false) in s.nodes[d.lo].pending ==> OnDisk(d.path, d.large, s.nodes[d.lo])
  }

  /** In addition `lo` has no publication of the small version outstanding, so no stale record can come. */
  ghost predicate Clean(w: World, d: Duel, s: System)
    requires |s.nodes| == 2 && d.lo < 2
  {
    var lo := s.nodes[d.lo];
    && Woken(d, s)
    && (forall job :: job in s.jobs && job.owner == d.lo && job.task.event.path == d.path && job.task.Recording? ==>
          Names(w, d.large, job.task.event.checksum, job.task.event.size))
    && (OnDisk(d.path, d.large, lo) ==>
          Recorded(w, d.path, d.large, lo) || Watch(d.path, false) in lo.pending || RecordUnderway(d, s))
  }

  // ---- Preservation ------------------------------------------------------

  lemma SendLawful(w: World, d: Duel, s: System, msg: Message)
    requires Lawful(w, d, s)
    requires forall to :: to in Receivers(2, msg.from) ==> FairPacket(w, d, Packet(to, msg))
    ensures Lawful(w, d, Send(s, msg)) && (Fetched(d, s) ==> Fetched(d, Send(s, msg)))
  {
  }

  lemma SpawnLawful(w: World, d: Duel, s: System, n: Peer, task: Task)
    requires Lawful(w, d, s) && FairJob(w, d, s, Job(n, task))
    ensures Lawful(w, d, Spawn(s, n, task)) && (Fetched(d, s) ==> Fetched(d, Spawn(s, n, task)))
  {
  }

  lemma SameNodeCatchesUp(w: World, d: Duel, s: System, n: Peer, node: Node)
    requires CatchingUp(w, d, s) && n < 2 && AlikeAt(d.path, s.nodes[n], node)
    ensures CatchingUp(w, d, s.(nodes := s.nodes[n := node]))
    ensures Clean(w, d, s) ==> Clean(w, d, s.(nodes := s.nodes[n := node]))
  {
    var s' := s.(nodes := s.nodes[n := node]);
    forall job | job in s.jobs
      ensures FairJob(w, d, s', job)
    {
      assert FairJob(w, d, s, job);
    }
    assert Fetched(d, s) ==> Fetched(d, s');
    assert RecordUnderway(d, s) ==> RecordUnderway(d, s');
  }

  lemma DrainedLawful(w: World, d: Duel, s: System, n: Peer, watch: Watch)
    requires CatchingUp(w, d, s) && n < 2
    ensures var drained := s.(nodes := s.nodes[n := s.nodes[n].(pending := s.nodes[n].pending - {watch})]);
            Lawful(w, d, drained) && (Fetched(d, s) && !(n == d.Hi() && watch == Watch(d.path, false)) ==>
                Fetched(d, drained))
  {
    var drained := s.(nodes := s.nodes[n := s.nodes[n].(pending := s.nodes[n].pending - {watch})]);
    forall job | job in s.jobs
      ensures FairJob(w, d, drained, job)
    {
      assert FairJob(w, d, s, job);
    }
  }

  lemma FireCatchesUp(w: World, d: Duel, s: System, n: Peer, watch: Watch, now: Time)
    requires CatchingUp(w, d, s) && Enabled(s, Fire(n, watch, now))
    ensures CatchingUp(w, d, Apply(w, s, Fire(n, watch, now)))
    ensures Clean(w, d, s) ==> Clean(w, d, Apply(w, s, Fire(n, watch, now)))
  {
    var node := s.nodes[n].(pending := s.nodes[n].pending - {watch});
    var drained := s.(nodes := s.nodes[n := node]);
    var event := Observe(w.hash, s.nodes[n].disk, watch.path, watch.removed, now);
    DrainedLawful(w, d, s, n, watch);
    SendLawful(w, d, drained, EventMessage(n, event, now));
    var sent := Send(drained, EventMessage(n, event, now));
    SpawnLawful(w, d, sent, n, Recording(event));
    assert Job(n, Recording(event)) in Spawn(sent, n, Recording(event)).jobs;
    assert n == d.Hi() ==> Packet(d.lo, EventMessage(n, event, now)) in sent.net;
    assert RecordUnderway(d, s) ==> RecordUnderway(d, Spawn(sent, n, Recording(event)));
  }

  /** Off the path, a packet or a job can go without consequence. */
  lemma TakePacket(w: World, d: Duel, s: System, i: nat)
    requires CatchingUp(w, d, s) && i < |s.net|
    ensures var rest := s.(net := RemoveAt(s.net, i));
            && Lawful(w, d, rest) && (Clean(w, d, s) ==> Clean(w, d, rest))
            && (Fetched(d, s) ==>
                  (s.net[i].msg.path == d.path ==> s.net[i].to == d.Hi() && !s.net[i].msg.kind.Request?) ==>
                    Fetched(d, rest))
  {
    var rest := s.(net := RemoveAt(s.net, i));
    forall job | job in s.jobs
      ensures FairJob(w, d, rest, job)
    {
      assert FairJob(w, d, s, job);
    }
  }

  lemma ReceiveCatchesUp(w: World, d: Duel, s: System, i: nat, now: Time)
    requires CatchingUp(w, d, s) && Enabled(s, Deliver(i, now))
    ensures CatchingUp(w, d, Apply(w, s, Deliver(i, now)))
    ensures Clean(w, d, s) ==> Clean(w, d, Apply(w, s, Deliver(i, now)))
  {
    var n, msg, rest := s.net[i].to, s.net[i].msg, s.(net := RemoveAt(s.net, i));
    TakePacket(w, d, s, i);
    assert FairPacket(w, d, s.net[i]);
    if msg.from != n {
      match msg.kind
      case Event => EventArrives(w, d, s, i, now);
      case Request => RequestArrives(w, d, s, i, now);
      case Response =>
        if msg.path != d.path {
          SameNodeCatchesUp(w, d, rest, n, Write(s.nodes[n], msg.path, msg.data, now));
        } else {
          ResponseArrives(w, d, rest, msg, now);
        }
      case Other(_) =>
    }
  }

  lemma EventArrives(w: World, d: Duel, s: System, i: nat, now: Time)
    requires CatchingUp(w, d, s) && Enabled(s, Deliver(i, now)) && s.net[i].msg.kind.Event?
        && s.net[i].msg.from != s.net[i].to
    ensures CatchingUp(w, d, Apply(w, s, Deliver(i, now)))
    ensures Clean(w, d, s) ==> Clean(w, d, Apply(w, s, Deliver(i, now)))
  {
    var n, msg, rest := s.net[i].to, s.net[i].msg, s.(net := RemoveAt(s.net, i));
    TakePacket(w, d, s, i);
    assert FairPacket(w, d, s.net[i]);
    if ShouldSyncFile(s.nodes[n].records, EventOf(msg)) {
      SpawnLawful(w, d, rest, n, Checked(EventOf(msg)));
      assert Job(n, Checked(EventOf(msg))) in Spawn(rest, n, Checked(EventOf(msg))).jobs;
    }
  }

  lemma RequestArrives(w: World, d: Duel, s: System, i: nat, now: Time)
    requires CatchingUp(w, d, s) && Enabled(s, Deliver(i, now)) && s.net[i].msg.kind.Request?
        && s.net[i].msg.from != s.net[i].to
    ensures CatchingUp(w, d, Apply(w, s, Deliver(i, now)))
    ensures Clean(w, d, s) ==> Clean(w, d, Apply(w, s, Deliver(i, now)))
  {
    var n, msg, rest := s.net[i].to, s.net[i].msg, s.(net := RemoveAt(s.net, i));
    TakePacket(w, d, s, i);
    assert FairPacket(w, d, s.net[i]);
    if msg.path in s.nodes[n].disk {
      var response := ResponseMessage(n, msg.path, s.nodes[n].disk[msg.path].content, now);
      SendLawful(w, d, rest, response);
      assert msg.path == d.path ==> Packet(d.lo, response) in Send(rest, response).net;
    }
  }

  lemma ResponseArrives(w: World, d: Duel, s: System, msg: Message, now: Time)
    requires Lawful(w, d, s) && msg.path == d.path && msg.data == d.large
    ensures var s' := s.(nodes := s.nodes[d.lo := Write(s.nodes[d.lo], msg.path, msg.data, now)]);
            CatchingUp(w, d, s') && (Clean(w, d, s) ==> Clean(w, d, s'))
  {
    var s' := s.(nodes := s.nodes[d.lo := Write(s.nodes[d.lo], msg.path, msg.data, now)]);
    forall job | job in s.jobs
      ensures FairJob(w, d, s', job)
    {
      assert FairJob(w, d, s, job);
    }
  }

  lemma TakeJob(w: World, d: Duel, s: System, j: nat)
    requires CatchingUp(w, d, s) && j < |s.jobs|
    ensures var rest := s.(jobs := RemoveAt(s.jobs, j));
            && Lawful(w, d, rest)
            && (Fetched(d, s) ==>
                  (s.jobs[j].task.event.path == d.path ==> s.jobs[j].owner == d.Hi() || s.jobs[j].task.Recording?) ==>
                    Fetched(d, rest))
            && (Clean(w, d, s) && (s.jobs[j].task.event.path == d.path ==> !s.jobs[j].task.Recording?) ==>
                Clean(w, d, rest))
  {
    var rest := s.(jobs := RemoveAt(s.jobs, j));
    forall job | job in rest.jobs
      ensures FairJob(w, d, rest, job)
    {
      assert FairJob(w, d, s, job);
    }
    if s.jobs[j].task.event.path == d.path ==> !s.jobs[j].task.Recording? {
      assert RecordUnderway(d, s) ==> RecordUnderway(d, rest);
    }
  }

  lemma AdvanceCatchesUp(w: World, d: Duel, s: System, j: nat, now: Time)
    requires CatchingUp(w, d, s) && Enabled(s, Advance(j, now))
    ensures CatchingUp(w, d, Apply(w, s, Advance(j, now)))
    ensures Clean(w, d, s) ==> Clean(w, d, Apply(w, s, Advance(j, now)))
  {
    var job, rest := s.jobs[j], s.(jobs := RemoveAt(s.jobs, j));
    var n, node, event := job.owner, s.nodes[job.owner], job.task.event;
    var s' := Apply(w, s, Advance(j, now));
    TakeJob(w, d, s, j);
    assert FairJob(w, d, s, job);
    match job.task
    case Checked(_) =>
      var next := if HasConflict(node.records, event, now) then Conflicted(event) else Wanted(event);
      SpawnLawful(w, d, rest, n, next);
      assert Job(n, next) in s'.jobs;
    case Conflicted(_) => ResolveCatchesUp(w, d, s, j, now);
    case Wanted(_) =>
      var request := RequestMessage(n, event.path, now);
      SendLawful(w, d, rest, request);
      if event.path == d.path {
        assert Packet(d.Hi(), request) in s'.net;
      }
    case Recording(_) =>
      RecordCatchesUp(w, d, s, j, now);
  }

  lemma ResolveCatchesUp(w: World, d: Duel, s: System, j: nat, now: Time)
    requires CatchingUp(w, d, s) && Enabled(s, Advance(j, now)) && s.jobs[j].task.Conflicted?
    ensures CatchingUp(w, d, Apply(w, s, Advance(j, now)))
    ensures Clean(w, d, s) ==> Clean(w, d, Apply(w, s, Advance(j, now)))
  {
    var n, event, rest := s.jobs[j].owner, s.jobs[j].task.event, s.(jobs := RemoveAt(s.jobs, j));
    var node := s.nodes[n];
    TakeJob(w, d, s, j);
    assert FairJob(w, d, s, s.jobs[j]);
    assert s.nodes[n := node.(records := node.records)] == s.nodes;
    if ResolveConflict(BySize, node.records, event).1 {
      SpawnLawful(w, d, rest, n, Wanted(event));
      assert Job(n, Wanted(event)) in Apply(w, s, Advance(j, now)).jobs;
    }
  }

  lemma RecordCatchesUp(w: World, d: Duel, s: System, j: nat, now: Time)
    requires CatchingUp(w, d, s) && Enabled(s, Advance(j, now)) && s.jobs[j].task.Recording?
    ensures CatchingUp(w, d, Apply(w, s, Advance(j, now)))
    ensures Clean(w, d, s) ==> Clean(w, d, Apply(w, s, Advance(j, now)))
  {
    var n, event, rest := s.jobs[j].owner, s.jobs[j].task.event, s.(jobs := RemoveAt(s.jobs, j));
    var node := s.nodes[n].(records := s.nodes[n].records[event.path := RecordOf(event, now)]);
    TakeJob(w, d, s, j);
    assert FairJob(w, d, s, s.jobs[j]);
    if event.path != d.path {
      SameNodeCatchesUp(w, d, rest, n, node);
    } else {
      var s' := Apply(w, s, Advance(j, now));
      forall job | job in s'.jobs
        ensures FairJob(w, d, s', job)
      {
        assert FairJob(w, d, rest, job);
      }
      assert Fetched(d, rest) ==> Fetched(d, s');
    }
  }

  lemma StepCatchesUp(w: World, d: Duel, s: System, step: Step)
    requires CatchingUp(w, d, s) && Enabled(s, step) && HandsOff(d.path, step)
    ensures CatchingUp(w, d, Apply(w, s, step))
    ensures Clean(w, d, s) ==> Clean(w, d, Apply(w, s, step))
  {
    match step
    case Edit(n, p, c, now) => SameNodeCatchesUp(w, d, s, n, Write(s.nodes[n], p, c, now));
    case Delete(n, p) => SameNodeCatchesUp(w, d, s, n, FileSync.Remove(s.nodes[n], p));
    case Fire(n, watch, now) => FireCatchesUp(w, d, s, n, watch, now);
    case SyncFile(n, p, now) => AnnounceElsewhere(w, d, s, n, Observe(w.hash, s.nodes[n].disk, p, false, now), now);
    case Deliver(i, now) => ReceiveCatchesUp(w, d, s, i, now);
    case Advance(j, now) => AdvanceCatchesUp(w, d, s, j, now);
  }

  lemma AnnounceElsewhere(w: World, d: Duel, s: System, n: Peer, event: FileEvent, now: Time)
    requires CatchingUp(w, d, s) && event.path != d.path
    ensures CatchingUp(w, d, Announce(s, n, event, now))
    ensures Clean(w, d, s) ==> Clean(w, d, Announce(s, n, event, now))
  {
    var sent := Send(s, EventMessage(n, event, now));
    SendLawful(w, d, s, EventMessage(n, event, now));
    SpawnLawful(w, d, sent, n, Recording(event));
    assert RecordUnderway(d, s) ==> RecordUnderway(d, Announce(s, n, event, now));
  }

  // ---- The work left -----------------------------------------------------

  /** The announcements that are still acted on: the large version at `lo`, the small one at `hi`. */
  ghost function Open(w: World, d: Duel): set<(Peer, string)> {
    {(d.lo, w.hash(d.large)), (d.Hi(), w.hash(d.small))}
  }

  /** The load, and what the two first announcements may still add to it. */
  ghost function Budget(w: World, d: Duel, s: System): nat
    requires |s.nodes| == 2 && d.lo < 2
  {
    Load(Open(w, d), d.path, s)
    + (if Woken(d, s) then 0 else AnnouncementWeight(2))
    + (if Watch(d.path, false) in s.nodes[d.Hi()].pending then AnnouncementWeight(2) else 0)
  }

  lemma StepStaysWoken(w: World, d: Duel, s: System, step: Step)
    requires CatchingUp(w, d, s) && Enabled(s, step) && HandsOff(d.path, step)
    ensures var s' := Apply(w, s, step);
            && |s'.nodes| == 2 && (Woken(d, s) ==> Woken(d, s'))
            && (Watch(d.path, false) in s'.nodes[d.Hi()].pending ==> Watch(d.path, false) in s.nodes[d.Hi()].pending)
  {
    match step
    case Deliver(i, now) => DeliveryStaysWoken(w, d, s, i, now);
    case Advance(j, now) => assert Apply(w, s, step).nodes[d.lo].pending == s.nodes[d.lo].pending;
    case _ =>
  }

  lemma DeliveryStaysWoken(w: World, d: Duel, s: System, i: nat, now: Time)
    requires CatchingUp(w, d, s) && Enabled(s, Deliver(i, now))
    ensures var s' := Apply(w, s, Deliver(i, now));
            && |s'.nodes| == 2 && (Woken(d, s) ==> Woken(d, s'))
            && (Watch(d.path, false) in s'.nodes[d.Hi()].pending ==> Watch(d.path, false) in s.nodes[d.Hi()].pending)
  {
    assert FairPacket(w, d, s.net[i]);
  }

  lemma FireSpends(w: World, d: Duel, s: System, n: Peer, now: Time)
    requires Sized(w, s) && CatchingUp(w, d, s) && Enabled(s, Fire(n, Watch(d.path, false), now))
    ensures var s' := Apply(w, s, Fire(n, Watch(d.path, false), now));
            |s'.nodes| == 2 && Budget(w, d, s') < Budget(w, d, s)
  {
    var step := Fire(n, Watch(d.path, false), now);
    if n == d.lo && Woken(d, s) {
      StepLoad(w, Open(w, d), d.path, s, step);
    } else {
      FireLoadAtMost(w, Open(w, d), d.path, s, n, Watch(d.path, false), now);
    }
  }

  /** Handling something about the path uses up budget, and nothing adds to it. */
  lemma StepSpends(w: World, d: Duel, s: System, step: Step)
    requires Sized(w, s) && CatchingUp(w, d, s) && Enabled(s, step) && HandsOff(d.path, step)
    ensures var s' := Apply(w, s, step);
            && |s'.nodes| == 2
            && if Touches(d.path, s, step) then Budget(w, d, s') < Budget(w, d, s) else Budget(w, d, s') <= Budget(w,
                d, s)
  {
    if step.Fire? && step.watch.path == d.path {
      assert step.watch == Watch(d.path, false);
      FireSpends(w, d, s, step.node, step.now);
    } else {
      assert ClosedFor(w, Open(w, d), d.path, s, step) by {
        if step.Deliver? {
          assert FairPacket(w, d, s.net[step.index]);
        }
      }
      StepLoad(w, Open(w, d), d.path, s, step);
      StepStaysWoken(w, d, s, step);
    }
  }

  // ---- The theorems ------------------------------------------------------

  /**
   `hi` holds the large version and `lo` the small one; each has recorded its own version or
   nothing, and only announcements are under way. The large version is announced or will be.
   */
  ghost predicate Facing(w: World, d: Duel, s: System) {
    && Fair(w, d) && |s.nodes| == 2
    && (var hi := s.nodes[d.Hi()];
        && OnDisk(d.path, d.large, hi) && Watch(d.path, true) !in hi.pending
        && (d.path in hi.records ==> Recorded(w, d.path, d.large, hi)))
    && (var lo := s.nodes[d.lo];
        && OnDisk(d.path, d.small, lo) && Watch(d.path, true) !in lo.pending
        && (d.path in lo.records ==> Recorded(w, d.path, d.small, lo)))
    && (forall packet :: packet in s.net && packet.msg.path == d.path ==>
          packet.msg.kind.Event? && packet.to < 2 && packet.msg.from < 2 && packet.msg.from != packet.to
          && Names(w, if packet.to == d.lo then d.large else d.small, packet.msg.checksum, packet.msg.size))
    && (forall job :: job in s.jobs && job.task.event.path == d.path ==>
          job.owner < 2 && job.task.Recording?
          && Names(w, if job.owner == d.lo then d.small else d.large, job.task.event.checksum, job.task.event.size))
    && ((exists packet :: packet in s.net && packet.msg.path == d.path && packet.to == d.lo)
        || Watch(d.path, false) in s.nodes[d.Hi()].pending)
  }

  /** `hi` has recorded the large version. */
  ghost predicate LargePublished(w: World, d: Duel, s: System) {
    Facing(w, d, s) && d.path in s.nodes[d.Hi()].records
  }

  /** `lo` has no publication outstanding; whether it ever published does not matter. */
  ghost predicate Idle(d: Duel, s: System)
    requires |s.nodes| == 2 && d.lo < 2
  {
    && Watch(d.path, false) !in s.nodes[d.lo].pending
    && (forall job :: job in s.jobs && job.task.event.path == d.path ==> job.owner != d.lo)
  }

  /** The run may happen and leaves the path to the protocol. */
  ghost predicate Undisturbed(w: World, d: Duel, s: System, run: seq<Step>) {
    Sized(w, s) && Possible(w, s, run) && forall step :: step in run ==> HandsOff(d.path, step)
  }

  /** In addition nothing is left to do about the path at its end. */
  ghost predicate Silent(w: World, d: Duel, s: System, run: seq<Step>) {
    Undisturbed(w, d, s, run) && Quiet(d.path, After(w, s, run))
  }

  ghost predicate BothHold(d: Duel, content: Content, s: System) {
    forall n :: 0 <= n < |s.nodes| ==> OnDisk(d.path, content, s.nodes[n])
  }

  lemma StartCatchesUp(w: World, d: Duel, s: System)
    requires LargePublished(w, d, s)
    ensures CatchingUp(w, d, s) && (Idle(d, s) ==> Clean(w, d, s))
  {
    forall job | job in s.jobs
      ensures FairJob(w, d, s, job)
    {
    }
  }

  lemma {:induction false} RunCatchesUp(w: World, d: Duel, s: System, run: seq<Step>)
    requires CatchingUp(w, d, s) && Undisturbed(w, d, s, run)
    ensures CatchingUp(w, d, After(w, s, run))
    ensures Clean(w, d, s) ==> Clean(w, d, After(w, s, run))
    decreases |run|
  {
    if run != [] {
      StepCatchesUp(w, d, s, run[0]);
      RunCatchesUp(w, d, Apply(w, s, run[0]), run[1..]);
    }
  }

  lemma QuietMeansCaughtUp(w: World, d: Duel, s: System)
    requires CatchingUp(w, d, s) && Quiet(d.path, s)
    ensures BothHold(d, d.large, s) && Recorded(w, d.path, d.large, s.nodes[d.Hi()])
    ensures Clean(w, d, s) ==> Recorded(w, d.path, d.large, s.nodes[d.lo])
  {
  }

  /** Every silent outcome has the larger version on both disks. */
  lemma LargeVersionWins(w: World, d: Duel, s: System, run: seq<Step>)
    requires LargePublished(w, d, s) && Silent(w, d, s, run)
    ensures |After(w, s, run).nodes| == 2 && BothHold(d, d.large, After(w, s, run))
    ensures Recorded(w, d.path, d.large, After(w, s, run).nodes[d.Hi()])
    ensures Idle(d, s) ==> Recorded(w, d.path, d.large, After(w, s, run).nodes[d.lo])
  {
    StartCatchesUp(w, d, s);
    RunCatchesUp(w, d, s, run);
    QuietMeansCaughtUp(w, d, After(w, s, run));
  }

  /** The exchange is finite: each run handles the path at most as often as the budget allows, for every schedule. */
  lemma {:induction false} ExchangeIsBounded(w: World, d: Duel, s: System, run: seq<Step>)
    requires CatchingUp(w, d, s) && Undisturbed(w, d, s, run)
    ensures |After(w, s, run).nodes| == 2
        && Effort(w, d.path, s, run) + Budget(w, d, After(w, s, run)) <= Budget(w, d, s)
    decreases |run|
  {
    if run != [] {
      StepSpends(w, d, s, run[0]);
      StepCatchesUp(w, d, s, run[0]);
      ExchangeIsBounded(w, d, Apply(w, s, run[0]), run[1..]);
    }
  }

  lemma CatchingUpIsAddressed(w: World, d: Duel, s: System)
    requires CatchingUp(w, d, s)
    ensures Addressed(d.path, s)
  {
    forall packet | packet in s.net
      ensures packet.msg.path == d.path ==> packet.to < 2
    {
      assert FairPacket(w, d, packet);
    }
    forall job | job in s.jobs
      ensures job.task.event.path == d.path ==> job.owner < 2
    {
      assert FairJob(w, d, s, job);
    }
  }

  /** No run stops early: while the exchange is not silent, a step of it can be taken. */
  lemma ExchangeNeverStalls(w: World, d: Duel, s: System, run: seq<Step>, now: Time) returns (step: Step)
    requires LargePublished(w, d, s) && Undisturbed(w, d, s, run) && !Quiet(d.path, After(w, s, run))
    ensures Enabled(After(w, s, run), step) && Touches(d.path, After(w, s, run), step) && HandsOff(d.path, step)
  {
    StartCatchesUp(w, d, s);
    RunCatchesUp(w, d, s, run);
    CatchingUpIsAddressed(w, d, After(w, s, run));
    step := NotQuietMoves(d.path, After(w, s, run), now);
  }

  /** With one announcement each way in flight, no run takes more than 52 steps on the path. */
  lemma OneAnnouncementEach(w: World, d: Duel, s: System, toLo: Packet, toHi: Packet, run: seq<Step>)
    requires LargePublished(w, d, s) && Undisturbed(w, d, s, run)
    requires s.net == [toLo, toHi] && s.jobs == []
    requires forall n :: 0 <= n < 2 ==> Watch(d.path, false) !in s.nodes[n].pending
    ensures Effort(w, d.path, s, run) <= 52
  {
    StartCatchesUp(w, d, s);
    ExchangeIsBounded(w, d, s, run);
    var open := Open(w, d);
    assert s.net[1..] == [toHi] && s.net[1..][1..] == [];
    assert NetLoad(2, open, d.path, s.net)
        == PacketWeight(2, open, d.path, toLo) + (PacketWeight(2, open, d.path, toHi) + NetLoad(2, open, d.path, []));
    var second := s.nodes[1..];
    assert second[0] == s.nodes[1] && second[1..] == []
        && NodeLoad(2, d.path, second) == NodeWeight(2, d.path, s.nodes[1]);
  }
}
