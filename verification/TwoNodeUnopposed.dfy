/**
 The larger version without a record of it, while nobody announces the smaller one: it is
 then safe as well. What reaches its holder is only ever the echo of itself.
 */
module TwoNodeUnopposed {
  import opened Prelude
  import opened GoTime
  import opened FileSync
  import opened Gossip
  import opened Work
  import opened TwoNode

  ghost predicate LoHasLarge(d: Duel, s: System)
    requires |s.nodes| == 2 && d.lo < 2
  {
    OnDisk(d.path, d.large, s.nodes[d.lo])
  }

  ghost predicate EchoPacket(w: World, d: Duel, s: System, packet: Packet)
    requires |s.nodes| == 2 && d.lo < 2
  {
    packet.msg.path == d.path ==>
      && packet.to < 2 && packet.msg.from < 2 && packet.msg.from != packet.to
      && (packet.msg.kind.Event? ==> Names(w, d.large, packet.msg.checksum, packet.msg.size))
      && (packet.msg.kind.Response? ==> packet.msg.data == d.large)
      && ((packet.msg.kind.Event? && packet.to == d.Hi()) || (packet.msg.kind.Request? && packet.to == d.lo) ==>
          LoHasLarge(d, s))
  }

  ghost predicate EchoJob(w: World, d: Duel, s: System, job: Job)
    requires |s.nodes| == 2 && d.lo < 2
  {
    job.task.event.path == d.path ==>
      var event := job.task.event;
      && job.owner < 2
      && (Names(w, d.large, event.checksum, event.size)
          || (job.owner == d.lo && job.task.Recording? && Names(w, d.small, event.checksum, event.size)))
      && (job.owner == d.lo && job.task.Recording? && Names(w, d.large, event.checksum, event.size) ==>
          LoHasLarge(d, s))
      && (job.owner == d.Hi() && !job.task.Recording? ==> LoHasLarge(d, s))
  }

  ghost predicate LoFits(w: World, d: Duel, lo: Node) {
    && (OnDisk(d.path, d.small, lo) || OnDisk(d.path, d.large, lo))
    && (d.path in lo.records ==>
          Recorded(w, d.path, d.small, lo) || (Recorded(w, d.path, d.large, lo) && OnDisk(d.path, d.large, lo)))
    && Watch(d.path, true) !in lo.pending
    && (Watch(d.path, false) in lo.pending ==> OnDisk(d.path, d.large, lo))
  }

  ghost predicate HiFits(w: World, d: Duel, hi: Node) {
    && OnDisk(d.path, d.large, hi) && Watch(d.path, true) !in hi.pending
    && (d.path in hi.records ==> Recorded(w, d.path, d.large, hi))
  }

  /** Everything under way speaks of the large version, and reaches `hi` only once `lo` holds it. */
  ghost predicate Echoing(w: World, d: Duel, s: System) {
    && Fair(w, d) && |s.nodes| == 2
    && HiFits(w, d, s.nodes[d.Hi()]) && LoFits(w, d, s.nodes[d.lo])
    && (forall packet :: packet in s.net ==> EchoPacket(w, d, s, packet))
    && (forall job :: job in s.jobs ==> EchoJob(w, d, s, job))
  }

  ghost predicate Supplied(d: Duel, s: System)
    requires |s.nodes| == 2 && d.lo < 2
  {
    LoHasLarge(d, s) || Fetched(d, s)
  }

  // ---- Preservation ------------------------------------------------------

  lemma SendEchoes(w: World, d: Duel, s: System, msg: Message)
    requires Echoing(w, d, s) && forall to :: to in Receivers(2, msg.from) ==> EchoPacket(w, d, s, Packet(to, msg))
    ensures Echoing(w, d, Send(s, msg)) && (Fetched(d, s) ==> Fetched(d, Send(s, msg)))
  {
    assert forall packet :: packet in s.net ==> EchoPacket(w, d, Send(s, msg), packet);
    assert forall job :: job in s.jobs ==> EchoJob(w, d, Send(s, msg), job);
  }

  lemma SpawnEchoes(w: World, d: Duel, s: System, n: Peer, task: Task)
    requires Echoing(w, d, s) && EchoJob(w, d, s, Job(n, task))
    ensures Echoing(w, d, Spawn(s, n, task)) && (Fetched(d, s) ==> Fetched(d, Spawn(s, n, task)))
  {
    assert forall packet :: packet in s.net ==> EchoPacket(w, d, Spawn(s, n, task), packet);
    assert forall job :: job in s.jobs ==> EchoJob(w, d, Spawn(s, n, task), job);
  }

  lemma NodeEchoes(w: World, d: Duel, s: System, n: Peer, node: Node)
    requires Echoing(w, d, s) && n < 2
    requires if n == d.lo then LoFits(w, d, node) && (LoHasLarge(d, s) ==>
        OnDisk(d.path, d.large, node)) else HiFits(w, d, node)
    requires n == d.Hi() && Watch(d.path, false) in s.nodes[n].pending ==> Watch(d.path, false) in node.pending
    ensures var s' := s.(nodes := s.nodes[n := node]);
            Echoing(w, d, s') && (Supplied(d, s) ==> Supplied(d, s'))
  {
    NodeKeepsEchoing(w, d, s, n, node);
  }

  lemma NodeKeepsEchoing(w: World, d: Duel, s: System, n: Peer, node: Node)
    requires Echoing(w, d, s) && n < 2
    requires if n == d.lo then LoFits(w, d, node) && (LoHasLarge(d, s) ==>
        OnDisk(d.path, d.large, node)) else HiFits(w, d, node)
    ensures Echoing(w, d, s.(nodes := s.nodes[n := node]))
  {
    var s' := s.(nodes := s.nodes[n := node]);
    assert LoHasLarge(d, s) ==> LoHasLarge(d, s');
    forall packet | packet in s.net
      ensures EchoPacket(w, d, s', packet)
    {
      assert EchoPacket(w, d, s, packet);
    }
    forall job | job in s.jobs
      ensures EchoJob(w, d, s', job)
    {
      assert EchoJob(w, d, s, job);
    }
  }

  lemma AlikeEchoes(w: World, d: Duel, s: System, n: Peer, node: Node)
    requires Echoing(w, d, s) && Supplied(d, s) && n < 2 && AlikeAt(d.path, s.nodes[n], node)
    ensures Echoing(w, d, s.(nodes := s.nodes[n := node])) && Supplied(d, s.(nodes := s.nodes[n := node]))
  {
    NodeEchoes(w, d, s, n, node);
  }

  lemma RestEchoes(w: World, d: Duel, s: System, rest: System)
    requires Echoing(w, d, s) && rest.nodes == s.nodes
    requires (forall packet :: packet in rest.net ==> packet in s.net) && (forall job :: job in rest.jobs ==>
        job in s.jobs)
    ensures Echoing(w, d, rest)
  {
    forall packet | packet in rest.net
      ensures EchoPacket(w, d, rest, packet)
    {
      assert EchoPacket(w, d, s, packet);
    }
    forall job | job in rest.jobs
      ensures EchoJob(w, d, rest, job)
    {
      assert EchoJob(w, d, s, job);
    }
  }

  lemma FireEchoes(w: World, d: Duel, s: System, n: Peer, watch: Watch, now: Time)
    requires Echoing(w, d, s) && Supplied(d, s) && Enabled(s, Fire(n, watch, now))
    ensures var s' := Apply(w, s, Fire(n, watch, now)); Echoing(w, d, s') && Supplied(d, s')
  {
    var node := s.nodes[n].(pending := s.nodes[n].pending - {watch});
    var drained := s.(nodes := s.nodes[n := node]);
    var event := Observe(w.hash, s.nodes[n].disk, watch.path, watch.removed, now);
    NodeKeepsEchoing(w, d, s, n, node);
    SendEchoes(w, d, drained, EventMessage(n, event, now));
    var sent := Send(drained, EventMessage(n, event, now));
    SpawnEchoes(w, d, sent, n, Recording(event));
    if n == d.Hi() && watch.path == d.path {
      assert Packet(d.lo, EventMessage(n, event, now)) in sent.net;
    } else {
      NodeEchoes(w, d, s, n, node);
    }
  }

  lemma DeliverEchoes(w: World, d: Duel, s: System, i: nat, now: Time)
    requires Echoing(w, d, s) && Supplied(d, s) && Enabled(s, Deliver(i, now))
    ensures var s' := Apply(w, s, Deliver(i, now)); Echoing(w, d, s') && Supplied(d, s')
  {
    var n, msg, rest := s.net[i].to, s.net[i].msg, s.(net := RemoveAt(s.net, i));
    RestEchoes(w, d, s, rest);
    assert EchoPacket(w, d, s, s.net[i]);
    assert Supplied(d, rest) || (msg.path == d.path && (n == d.lo || msg.kind.Request?));
    if msg.from != n {
      match msg.kind
      case Event => EventEchoes(w, d, rest, n, msg);
      case Request => RequestEchoes(w, d, rest, n, msg, now);
      case Response =>
        if msg.path == d.path {
          NodeKeepsEchoing(w, d, rest, n, Write(s.nodes[n], msg.path, msg.data, now));
        } else {
          AlikeEchoes(w, d, rest, n, Write(s.nodes[n], msg.path, msg.data, now));
        }
      case Other(_) =>
        if msg.path == d.path {
          OthersSupplyNothing(d, s, i);
        }
    }
  }

  lemma OthersSupplyNothing(d: Duel, s: System, i: nat)
    requires |s.nodes| == 2 && d.lo < 2 && Supplied(d, s) && i < |s.net| && s.net[i].msg.kind.Other?
    ensures Supplied(d, s.(net := RemoveAt(s.net, i)))
  {
  }

  lemma EventEchoes(w: World, d: Duel, s: System, n: Peer, msg: Message)
    requires Echoing(w, d, s) && n < 2 && msg.kind.Event? && msg.from != n && EchoPacket(w, d, s, Packet(n, msg))
    requires Supplied(d, s) || (msg.path == d.path && n == d.lo)
    ensures Echoing(w, d, Receive(s, n, msg, 0)) && Supplied(d, Receive(s, n, msg, 0))
  {
    if ShouldSyncFile(s.nodes[n].records, EventOf(msg)) {
      SpawnEchoes(w, d, s, n, Checked(EventOf(msg)));
      assert Job(n, Checked(EventOf(msg))) in Spawn(s, n, Checked(EventOf(msg))).jobs;
    }
  }

  lemma RequestEchoes(w: World, d: Duel, s: System, n: Peer, msg: Message, now: Time)
    requires Echoing(w, d, s) && n < 2 && msg.kind.Request? && msg.from != n && EchoPacket(w, d, s, Packet(n, msg))
    requires Supplied(d, s) || msg.path == d.path
    ensures Echoing(w, d, Receive(s, n, msg, now)) && Supplied(d, Receive(s, n, msg, now))
  {
    if msg.path in s.nodes[n].disk {
      var response := ResponseMessage(n, msg.path, s.nodes[n].disk[msg.path].content, now);
      SendEchoes(w, d, s, response);
      if msg.path == d.path && n == d.Hi() {
        assert Packet(d.lo, response) in Send(s, response).net;
      }
    }
  }

  lemma AdvanceEchoes(w: World, d: Duel, s: System, j: nat, now: Time)
    requires Sized(w, s) && Echoing(w, d, s) && Supplied(d, s) && Enabled(s, Advance(j, now))
    ensures var s' := Apply(w, s, Advance(j, now)); Echoing(w, d, s') && Supplied(d, s')
  {
    var n, event, rest := s.jobs[j].owner, s.jobs[j].task.event, s.(jobs := RemoveAt(s.jobs, j));
    var node := s.nodes[n];
    RestEchoes(w, d, s, rest);
    assert EchoJob(w, d, s, s.jobs[j]);
    assert Supplied(d, rest) || (event.path == d.path && n == d.lo && !s.jobs[j].task.Recording?);
    match s.jobs[j].task
    case Checked(_) =>
      var next := if HasConflict(node.records, event, now) then Conflicted(event) else Wanted(event);
      SpawnEchoes(w, d, rest, n, next);
      assert Job(n, next) in Spawn(rest, n, next).jobs;
    case Conflicted(_) =>
      assert s.nodes[n := node.(records := node.records)] == s.nodes;
      if ResolveConflict(BySize, node.records, event).1 {
        SpawnEchoes(w, d, rest, n, Wanted(event));
        assert Job(n, Wanted(event)) in Spawn(rest, n, Wanted(event)).jobs;
      }
    case Wanted(_) =>
      var request := RequestMessage(n, event.path, now);
      SendEchoes(w, d, rest, request);
      if event.path == d.path && n == d.lo {
        assert Packet(d.Hi(), request) in Send(rest, request).net;
      }
    case Recording(_) =>
      NodeEchoes(w, d, rest, n, node.(records := node.records[event.path := RecordOf(event, now)]));
  }

  lemma AnnounceElsewhereEchoes(w: World, d: Duel, s: System, n: Peer, event: FileEvent, now: Time)
    requires Echoing(w, d, s) && Supplied(d, s) && event.path != d.path
    ensures Echoing(w, d, Announce(s, n, event, now)) && Supplied(d, Announce(s, n, event, now))
  {
    SendEchoes(w, d, s, EventMessage(n, event, now));
    SpawnEchoes(w, d, Send(s, EventMessage(n, event, now)), n, Recording(event));
  }

  lemma StepEchoes(w: World, d: Duel, s: System, step: Step)
    requires Sized(w, s) && Echoing(w, d, s) && Supplied(d, s) && Enabled(s, step) && HandsOff(d.path, step)
    ensures Echoing(w, d, Apply(w, s, step)) && Supplied(d, Apply(w, s, step))
  {
    match step
    case Edit(n, p, c, now) => AlikeEchoes(w, d, s, n, Write(s.nodes[n], p, c, now));
    case Delete(n, p) => AlikeEchoes(w, d, s, n, FileSync.Remove(s.nodes[n], p));
    case Fire(n, watch, now) => FireEchoes(w, d, s, n, watch, now);
    case SyncFile(n, p, now) => AnnounceElsewhereEchoes(w, d, s, n, Observe(w.hash, s.nodes[n].disk, p, false, now),
        now);
    case Deliver(i, now) => DeliverEchoes(w, d, s, i, now);
    case Advance(j, now) => AdvanceEchoes(w, d, s, j, now);
  }

  lemma {:induction false} RunEchoes(w: World, d: Duel, s: System, run: seq<Step>)
    requires Echoing(w, d, s) && Supplied(d, s) && Undisturbed(w, d, s, run)
    ensures Echoing(w, d, After(w, s, run)) && Supplied(d, After(w, s, run))
    decreases |run|
  {
    if run != [] {
      StepEchoes(w, d, s, run[0]);
      RunEchoes(w, d, Apply(w, s, run[0]), run[1..]);
    }
  }

  // ---- The theorem -------------------------------------------------------

  /** The small version is announced to `hi`, or will be. */
  ghost predicate SmallComing(d: Duel, s: System)
    requires |s.nodes| == 2 && d.lo < 2
  {
    || (exists packet :: packet in s.net && packet.msg.path == d.path && packet.to == d.Hi())
    || Watch(d.path, false) in s.nodes[d.lo].pending
  }

  lemma StartEchoes(w: World, d: Duel, s: System)
    requires Facing(w, d, s) && !SmallComing(d, s)
    ensures Echoing(w, d, s) && Supplied(d, s)
  {
  }

  lemma QuietMeansEchoed(w: World, d: Duel, s: System)
    requires Echoing(w, d, s) && Supplied(d, s) && Quiet(d.path, s)
    ensures BothHold(d, d.large, s)
  {
  }

  /** Unannounced, the small version gives way in every silent outcome, with or without a record of the large one. */
  lemma UnopposedVersionWins(w: World, d: Duel, s: System, run: seq<Step>)
    requires Facing(w, d, s) && !SmallComing(d, s) && Silent(w, d, s, run)
    ensures BothHold(d, d.large, After(w, s, run))
  {
    StartEchoes(w, d, s);
    RunEchoes(w, d, s, run);
    QuietMeansEchoed(w, d, After(w, s, run));
  }
}
