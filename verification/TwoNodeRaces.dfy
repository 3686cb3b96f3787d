/**
 Why TwoNode asks for a recorded large version, and for no outstanding publication of the
 small one. Both conditions are exact: where one fails, some run falls silent with the
 outcome that TwoNode rules out.
 */
module TwoNodeRaces {
  import opened Prelude
  import opened GoTime
  import opened FileSync
  import opened Gossip
  import opened Work
  import opened TwoNode
  import opened TwoNodeUnopposed

  // ---- Runs --------------------------------------------------------------

  ghost predicate Leads(w: World, d: Duel, s: System, run: seq<Step>, end: System) {
    Undisturbed(w, d, s, run) && After(w, s, run) == end
  }

  lemma Then(w: World, d: Duel, s: System, run: seq<Step>, mid: System, more: seq<Step>, end: System)
    requires Leads(w, d, s, run, mid) && Leads(w, d, mid, more, end)
    ensures Leads(w, d, s, run + more, end)
  {
    Concat(w, s, run, more);
  }

  lemma OneStep(w: World, d: Duel, s: System, step: Step)
    requires Sized(w, s) && Enabled(s, step) && HandsOff(d.path, step)
    ensures Leads(w, d, s, [step], Apply(w, s, step))
  {
    Cons(w, s, step, []);
    assert [step] + [] == [step];
  }

  // ---- A publication under way leaves a stale record ----------------------

  /** Goroutine j is about to record the small version at `lo`. */
  ghost predicate Held(w: World, d: Duel, s: System, j: nat) {
    && j < |s.jobs| && s.jobs[j].owner == d.lo && s.jobs[j].task.Recording? && s.jobs[j].task.event.path == d.path
    && Names(w, d.small, s.jobs[j].task.event.checksum, s.jobs[j].task.event.size)
  }

  /** Whatever else steps, the goroutine stays, perhaps at an earlier place. */
  lemma StaysHeld(w: World, d: Duel, s: System, j: nat, step: Step) returns (k: nat)
    requires Sized(w, s) && Held(w, d, s, j) && Enabled(s, step) && !(step.Advance? && step.index == j)
    ensures Held(w, d, Apply(w, s, step), k)
  {
    k := if step.Advance? && step.index < j then j - 1 else j;
    var s' := Apply(w, s, step);
    assert k < |s'.jobs| && s'.jobs[k] == s.jobs[j];
  }

  /** Work on the path other than that goroutine. */
  lemma OtherWork(d: Duel, s: System, j: nat, now: Time) returns (step: Step)
    requires Addressed(d.path, s) && j < |s.jobs| && !Quiet(d.path, s.(jobs := RemoveAt(s.jobs, j)))
    ensures Enabled(s, step) && Touches(d.path, s, step) && HandsOff(d.path, step) && !(step.Advance?
        && step.index == j)
  {
    var rest := s.(jobs := RemoveAt(s.jobs, j));
    step := NotQuietMoves(d.path, rest, now);
    if step.Advance? {
      assert rest.jobs[step.index] == s.jobs[if step.index < j then step.index else step.index + 1];
      step := Advance(if step.index < j then step.index else step.index + 1, now);
    }
  }

  /** Everything else runs first, then the goroutine. */
  lemma {:induction false} HoldToTheEnd(w: World, d: Duel, s: System, j: nat, now: Time) returns (run: seq<Step>)
    requires Sized(w, s) && CatchingUp(w, d, s) && Held(w, d, s, j)
    ensures Silent(w, d, s, run) && Recorded(w, d.path, d.small, After(w, s, run).nodes[d.lo])
    decreases Budget(w, d, s)
  {
    if Quiet(d.path, s.(jobs := RemoveAt(s.jobs, j))) {
      OneStep(w, d, s, Advance(j, now));
      run := [Advance(j, now)];
    } else {
      CatchingUpIsAddressed(w, d, s);
      var step := OtherWork(d, s, j, now);
      var k := StaysHeld(w, d, s, j, step);
      StepSpends(w, d, s, step);
      StepCatchesUp(w, d, s, step);
      run := HoldToTheEnd(w, d, Apply(w, s, step), k, now);
      OneStep(w, d, s, step);
      Then(w, d, s, [step], Apply(w, s, step), run, After(w, Apply(w, s, step), run));
      run := [step] + run;
    }
  }

  /** With a publication of the small version outstanding, some run ends silent with a record of it. */
  lemma StaleRecordFollows(w: World, d: Duel, s: System, now: Time) returns (run: seq<Step>)
    requires Sized(w, s) && LargePublished(w, d, s) && !Idle(d, s)
    ensures Silent(w, d, s, run) && Recorded(w, d.path, d.small, After(w, s, run).nodes[d.lo])
  {
    StartCatchesUp(w, d, s);
    if Watch(d.path, false) in s.nodes[d.lo].pending {
      var step := Fire(d.lo, Watch(d.path, false), now);
      var s1 := Apply(w, s, step);
      assert s1.jobs[|s.jobs|].task.event == Observe(w.hash, s.nodes[d.lo].disk, d.path, false, now);
      StepCatchesUp(w, d, s, step);
      run := HoldToTheEnd(w, d, s1, |s.jobs|, now);
      OneStep(w, d, s, step);
      Then(w, d, s, [step], s1, run, After(w, s1, run));
      run := [step] + run;
    } else {
      var job :| job in s.jobs && job.task.event.path == d.path && job.owner == d.lo;
      var j :| 0 <= j < |s.jobs| && s.jobs[j] == job;
      run := HoldToTheEnd(w, d, s, j, now);
    }
  }

  /**
   Every silent outcome has the large version in `lo`'s record too, exactly if no publication of the small one
   is outstanding.
   */
  lemma RecordsConvergeExactly(w: World, d: Duel, s: System)
    requires Sized(w, s) && LargePublished(w, d, s)
    ensures (forall run :: Silent(w, d, s, run) ==> Recorded(w, d.path, d.large, After(w, s, run).nodes[d.lo])) <==>
        Idle(d, s)
  {
    if Idle(d, s) {
      forall run | Silent(w, d, s, run)
        ensures Recorded(w, d.path, d.large, After(w, s, run).nodes[d.lo])
      {
        LargeVersionWins(w, d, s, run);
      }
    } else {
      var run := StaleRecordFollows(w, d, s, 0);
      assert !Recorded(w, d.path, d.large, After(w, s, run).nodes[d.lo]);
    }
  }

  // ---- A large version without a record is lost ---------------------------

  predicate NamesEither(w: World, d: Duel, checksum: string, size: int) {
    Names(w, d.small, checksum, size) || Names(w, d.large, checksum, size)
  }

  /** Between two nodes a broadcast is one packet to the other. */
  lemma ToTheOther(msg: Message)
    requires msg.from < 2
    ensures Broadcast(2, msg) == [Packet(Opposite(msg.from), msg)]
  {
    assert Broadcast(0, msg) == [];
    assert Broadcast(1, msg) == if msg.from == 0 then [] else [Packet(0, msg)];
    assert Broadcast(2, msg) == Broadcast(1, msg) + if msg.from == 1 then [] else [Packet(1, msg)];
  }

  /** Packet i announces the path to node n. */
  ghost predicate Announces(d: Duel, s: System, i: nat, n: Peer) {
    i < |s.net| && s.net[i].to == n && s.net[i].msg.path == d.path && s.net[i].msg.kind.Event? && s.net[i].msg.from != n
  }

  /** Delivery of the last packet, a request or a response, in one step. */
  lemma LastIsHandled(w: World, d: Duel, s: System, net: seq<Packet>, packet: Packet, now: Time)
    requires Sized(w, s) && |s.nodes| == 2 && s.net == net + [packet] && packet.to < 2
    requires packet.msg.kind.Request? || packet.msg.kind.Response?
    ensures Leads(w, d, s, [Deliver(|net|, now)], Handled(w, s, |net|, now))
    ensures RemoveAt(s.net, |net|) == net
  {
    HandledByDelivery(w, s, |net|, now);
    OneStep(w, d, s, Deliver(|net|, now));
  }

  /** A node asks for what is announced, if its record lets the event through. */
  lemma Asks(w: World, d: Duel, s: System, i: nat, n: Peer, now: Time)
    requires Sized(w, s) && Fair(w, d) && |s.nodes| == 2 && n < 2 && Announces(d, s, i, n)
    requires HandleFileEvent(BySize, s.nodes[n].records, EventOf(s.net[i].msg), now).1
    ensures Leads(w, d, s, HandlingSteps(w, s, i, now),
                  System(s.nodes, RemoveAt(s.net, i) + [Packet(Opposite(n), RequestMessage(n, d.path, now))], s.jobs))
  {
    ToTheOther(RequestMessage(n, d.path, now));
    HandlerIsARun(w, s, i, now);
    assert s.nodes[n := s.nodes[n].(records := s.nodes[n].records)] == s.nodes;
  }

  /** Asked last, the other node gives what it holds. */
  lemma Gives(w: World, d: Duel, s: System, net: seq<Packet>, n: Peer, now: Time)
    requires Sized(w, s) && |s.nodes| == 2 && n < 2 && d.path in s.nodes[Opposite(n)].disk
    requires s.net == net + [Packet(Opposite(n), RequestMessage(n, d.path, now))]
    ensures var response := ResponseMessage(Opposite(n), d.path, s.nodes[Opposite(n)].disk[d.path].content, now);
            Leads(w, d, s, [Deliver(|net|, now)], System(s.nodes, net + [Packet(n, response)], s.jobs))
  {
    ToTheOther(ResponseMessage(Opposite(n), d.path, s.nodes[Opposite(n)].disk[d.path].content, now));
    LastIsHandled(w, d, s, net, Packet(Opposite(n), RequestMessage(n, d.path, now)), now);
    assert s.nodes[Opposite(n) := s.nodes[Opposite(n)]] == s.nodes;
  }

  lemma Takes(w: World, d: Duel, s: System, net: seq<Packet>, n: Peer, content: Content, now: Time)
    requires Sized(w, s) && |s.nodes| == 2 && n < 2
    requires s.net == net + [Packet(n, ResponseMessage(Opposite(n), d.path, content, now))]
    ensures Leads(w, d, s, [Deliver(|net|, now)], System(s.nodes[n := Write(s.nodes[n], d.path, content, now)], net,
        s.jobs))
  {
    LastIsHandled(w, d, s, net, Packet(n, ResponseMessage(Opposite(n), d.path, content, now)), now);
    assert net + [] == net;
  }

  /** A node that lets the event through fetches whatever the other node holds, over whatever it holds itself. */
  lemma Fetches(w: World, d: Duel, s: System, i: nat, n: Peer, now: Time) returns (run: seq<Step>)
    requires Sized(w, s) && Fair(w, d) && |s.nodes| == 2 && n < 2 && Announces(d, s, i, n)
    requires HandleFileEvent(BySize, s.nodes[n].records, EventOf(s.net[i].msg), now).1
        && d.path in s.nodes[Opposite(n)].disk
    ensures var content := s.nodes[Opposite(n)].disk[d.path].content;
            Leads(w, d, s, run, System(s.nodes[n := Write(s.nodes[n], d.path, content, now)], RemoveAt(s.net, i),
                s.jobs))
  {
    var net, content := RemoveAt(s.net, i), s.nodes[Opposite(n)].disk[d.path].content;
    var asked := System(s.nodes, net + [Packet(Opposite(n), RequestMessage(n, d.path, now))], s.jobs);
    var given := System(s.nodes, net + [Packet(n, ResponseMessage(Opposite(n), d.path, content, now))], s.jobs);
    var taken := System(s.nodes[n := Write(s.nodes[n], d.path, content, now)], net, s.jobs);
    Asks(w, d, s, i, n, now);
    Gives(w, d, asked, net, n, now);
    Takes(w, d, given, net, n, content, now);
    var deliver := [Deliver(|net|, now)];
    Then(w, d, asked, deliver, given, deliver, taken);
    Then(w, d, s, HandlingSteps(w, s, i, now), asked, deliver + deliver, taken);
    run := HandlingSteps(w, s, i, now) + (deliver + deliver);
  }

  /** Without a record it lets every event through. */
  lemma FetchesOver(w: World, d: Duel, s: System, i: nat, n: Peer, now: Time) returns (run: seq<Step>)
    requires Sized(w, s) && Fair(w, d) && |s.nodes| == 2 && n < 2 && Announces(d, s, i, n)
    requires d.path !in s.nodes[n].records && d.path in s.nodes[Opposite(n)].disk
    ensures var content := s.nodes[Opposite(n)].disk[d.path].content;
            Leads(w, d, s, run, System(s.nodes[n := Write(s.nodes[n], d.path, content, now)], RemoveAt(s.net, i),
                s.jobs))
  {
    run := Fetches(w, d, s, i, n, now);
  }

  // ---- From the loss to silence ------------------------------------------

  /** Only the small version is left; what is under way are announcements and records to be written. */
  ghost predicate OnlySmall(w: World, d: Duel, s: System) {
    && Sized(w, s) && Fair(w, d) && |s.nodes| == 2
    && (forall n :: 0 <= n < 2 ==> OnDisk(d.path, d.small, s.nodes[n]) && Watch(d.path, true) !in s.nodes[n].pending)
    && (d.path in s.nodes[d.lo].records ==> Recorded(w, d.path, d.small, s.nodes[d.lo]))
    && (forall packet :: packet in s.net && packet.msg.path == d.path ==>
          packet.msg.kind.Event? && packet.to < 2 && packet.msg.from < 2 && packet.msg.from != packet.to
          && NamesEither(w, d, packet.msg.checksum, packet.msg.size))
    && (forall job :: job in s.jobs && job.task.event.path == d.path ==>
          job.owner < 2 && job.task.Recording?
          && (job.owner == d.lo ==> Names(w, d.small, job.task.event.checksum, job.task.event.size)))
  }

  ghost predicate NoJobs(d: Duel, s: System) {
    forall job :: job in s.jobs ==> job.task.event.path != d.path
  }

  /** The goroutines that are about to record do so. */
  lemma {:induction false} RecordAll(w: World, d: Duel, s: System, now: Time) returns (run: seq<Step>, end: System)
    requires OnlySmall(w, d, s)
    ensures Leads(w, d, s, run, end) && OnlySmall(w, d, end) && NoJobs(d, end)
    ensures forall n :: 0 <= n < 2 ==> end.nodes[n].pending == s.nodes[n].pending
    decreases |s.jobs|
  {
    if NoJobs(d, s) {
      run, end := [], s;
    } else {
      var job :| job in s.jobs && job.task.event.path == d.path;
      var j :| 0 <= j < |s.jobs| && s.jobs[j] == job;
      var step := Advance(j, now);
      run, end := RecordAll(w, d, Apply(w, s, step), now);
      OneStep(w, d, s, step);
      Then(w, d, s, [step], Apply(w, s, step), run, end);
      run := [step] + run;
    }
  }

  /** A woken node announces what it holds and records it. */
  lemma FiresAndRecords(w: World, d: Duel, s: System, n: Peer, now: Time) returns (run: seq<Step>)
    requires Sized(w, s) && |s.nodes| == 2 && n < 2 && Watch(d.path, false) in s.nodes[n].pending
        && d.path in s.nodes[n].disk
    ensures var event := Observe(w.hash, s.nodes[n].disk, d.path, false, now);
            var node := s.nodes[n].(pending := s.nodes[n].pending - {Watch(d.path, false)},
                                    records := s.nodes[n].records[d.path := RecordOf(event, now)]);
            Leads(w, d, s, run, System(s.nodes[n := node], s.net + [Packet(Opposite(n), EventMessage(n, event,
                now))], s.jobs))
  {
    run := [Fire(n, Watch(d.path, false), now), Advance(|s.jobs|, now)];
    FiringIsARun(w, s, n, Watch(d.path, false), now);
    ToTheOther(EventMessage(n, Observe(w.hash, s.nodes[n].disk, d.path, false, now), now));
  }

  lemma FiresSmall(w: World, d: Duel, s: System, n: Peer, now: Time) returns (run: seq<Step>, end: System)
    requires OnlySmall(w, d, s) && NoJobs(d, s) && n < 2 && Watch(d.path, false) in s.nodes[n].pending
    ensures Leads(w, d, s, run, end) && OnlySmall(w, d, end) && NoJobs(d, end)
    ensures Recorded(w, d.path, d.small, end.nodes[n]) && end.nodes[Opposite(n)] == s.nodes[Opposite(n)]
    ensures exists i :: Announces(d, end, i, Opposite(n))
  {
    run := FiresAndRecords(w, d, s, n, now);
    end := After(w, s, run);
    assert end.net[..|s.net|] == s.net;
    assert Announces(d, end, |s.net|, Opposite(n));
  }

  /** Both nodes have recorded the small version; nothing under way can bring another. */
  ghost predicate SmallSettled(w: World, d: Duel, s: System) {
    && Sized(w, s) && Fair(w, d) && |s.nodes| == 2
    && (forall n :: 0 <= n < 2 ==>
          && OnDisk(d.path, d.small, s.nodes[n]) && Recorded(w, d.path, d.small, s.nodes[n])
          && Watch(d.path, true) !in s.nodes[n].pending)
    && (forall packet :: packet in s.net ==> SettledPacket(w, d, packet))
    && (forall job :: job in s.jobs ==> SettledTask(w, d, job.task) && (job.task.event.path == d.path ==>
        job.owner < 2))
  }

  ghost predicate SettledPacket(w: World, d: Duel, packet: Packet) {
    packet.msg.path == d.path ==>
      && packet.to < 2 && packet.msg.from < 2
      && (packet.msg.kind.Event? ==> NamesEither(w, d, packet.msg.checksum, packet.msg.size))
      && (packet.msg.kind.Response? ==> packet.msg.data == d.small)
  }

  ghost predicate SettledTask(w: World, d: Duel, task: Task) {
    task.event.path == d.path && task.Recording? ==> Names(w, d.small, task.event.checksum, task.event.size)
  }

  lemma SendStaysSettled(w: World, d: Duel, s: System, msg: Message)
    requires SmallSettled(w, d, s) && forall to :: to in Receivers(2, msg.from) ==> SettledPacket(w, d, Packet(to, msg))
    ensures SmallSettled(w, d, Send(s, msg))
  {
  }

  lemma SpawnStaysSettled(w: World, d: Duel, s: System, n: Peer, task: Task)
    requires SmallSettled(w, d, s) && n < 2 && SettledTask(w, d, task)
    ensures SmallSettled(w, d, Spawn(s, n, task))
  {
  }

  lemma NodeStaysSettled(w: World, d: Duel, s: System, n: Peer, node: Node)
    requires SmallSettled(w, d, s) && n < 2
    requires OnDisk(d.path, d.small, node) && Recorded(w, d.path, d.small, node) && Watch(d.path, true) !in node.pending
    ensures SmallSettled(w, d, s.(nodes := s.nodes[n := node]))
  {
  }

  lemma DeliverStaysSettled(w: World, d: Duel, s: System, i: nat, now: Time)
    requires SmallSettled(w, d, s) && Enabled(s, Deliver(i, now)) && s.net[i].msg.path == d.path
    ensures SmallSettled(w, d, Apply(w, s, Deliver(i, now)))
  {
    var n, msg, rest := s.net[i].to, s.net[i].msg, s.(net := RemoveAt(s.net, i));
    assert s.net[i] in s.net && SmallSettled(w, d, rest);
    match msg.kind
    case Event => SpawnStaysSettled(w, d, rest, n, Checked(EventOf(msg)));
    case Request => SendStaysSettled(w, d, rest, ResponseMessage(n, d.path, d.small, now));
    case Response => NodeStaysSettled(w, d, rest, n, Write(s.nodes[n], msg.path, msg.data, now));
    case Other(_) =>
  }

  lemma AdvanceStaysSettled(w: World, d: Duel, s: System, j: nat, now: Time)
    requires SmallSettled(w, d, s) && Enabled(s, Advance(j, now)) && s.jobs[j].task.event.path == d.path
    ensures SmallSettled(w, d, Apply(w, s, Advance(j, now)))
  {
    var n, event, rest := s.jobs[j].owner, s.jobs[j].task.event, s.(jobs := RemoveAt(s.jobs, j));
    var node := s.nodes[n];
    assert s.jobs[j] in s.jobs && SmallSettled(w, d, rest);
    match s.jobs[j].task
    case Checked(_) =>
      SpawnStaysSettled(w, d, rest, n, if HasConflict(node.records, event,
          now) then Conflicted(event) else Wanted(event));
    case Conflicted(_) =>
      assert s.nodes[n := node.(records := node.records)] == s.nodes;
      SpawnStaysSettled(w, d, rest, n, Wanted(event));
    case Wanted(_) => SendStaysSettled(w, d, rest, RequestMessage(n, event.path, now));
    case Recording(_) =>
      NodeStaysSettled(w, d, rest, n, node.(records := node.records[event.path := RecordOf(event, now)]));
  }

  lemma FireStaysSettled(w: World, d: Duel, s: System, n: Peer, now: Time)
    requires SmallSettled(w, d, s) && Enabled(s, Fire(n, Watch(d.path, false), now))
    ensures SmallSettled(w, d, Apply(w, s, Fire(n, Watch(d.path, false), now)))
  {
    var node := s.nodes[n].(pending := s.nodes[n].pending - {Watch(d.path, false)});
    var drained := s.(nodes := s.nodes[n := node]);
    var event := Observe(w.hash, s.nodes[n].disk, d.path, false, now);
    NodeStaysSettled(w, d, s, n, node);
    SendStaysSettled(w, d, drained, EventMessage(n, event, now));
    SpawnStaysSettled(w, d, Send(drained, EventMessage(n, event, now)), n, Recording(event));
  }

  lemma StepStaysSettled(w: World, d: Duel, s: System, step: Step)
    requires SmallSettled(w, d, s) && Enabled(s, step) && Touches(d.path, s, step)
    ensures SmallSettled(w, d, Apply(w, s, step))
  {
    match step
    case Deliver(i, now) => DeliverStaysSettled(w, d, s, i, now);
    case Advance(j, now) => AdvanceStaysSettled(w, d, s, j, now);
    case Fire(n, watch, now) =>
      assert watch == Watch(d.path, false);
      FireStaysSettled(w, d, s, n, now);
    case _ =>
  }

  /** Only announcements of the large version are still acted on. */
  ghost function LargeOpen(w: World, d: Duel): set<(Peer, string)> {
    {(0, w.hash(d.large)), (1, w.hash(d.large))}
  }

  lemma {:induction false} SettledFallsSilent(w: World, d: Duel, s: System, now: Time) returns (run: seq<Step>)
    requires SmallSettled(w, d, s)
    ensures Silent(w, d, s, run) && SmallSettled(w, d, After(w, s, run))
    decreases Load(LargeOpen(w, d), d.path, s)
  {
    if Quiet(d.path, s) {
      run := [];
    } else {
      var step := NotQuietMoves(d.path, s, now);
      assert ClosedFor(w, LargeOpen(w, d), d.path, s, step) by {
        assert step.Deliver? ==> s.net[step.index] in s.net;
      }
      StepLoad(w, LargeOpen(w, d), d.path, s, step);
      StepStaysSettled(w, d, s, step);
      run := SettledFallsSilent(w, d, Apply(w, s, step), now);
      OneStep(w, d, s, step);
      Then(w, d, s, [step], Apply(w, s, step), run, After(w, Apply(w, s, step), run));
      run := [step] + run;
    }
  }

  // ---- The theorem -------------------------------------------------------

  /** From the moment `hi` is about to be told, to the loss of the large version. */
  lemma HiIsOverwritten(w: World, d: Duel, s: System, i: nat, now: Time) returns (run: seq<Step>, end: System)
    requires Sized(w, s) && Facing(w, d, s) && d.path !in s.nodes[d.Hi()].records && Announces(d, s, i, d.Hi())
    ensures Leads(w, d, s, run, end) && OnlySmall(w, d, end) && Watch(d.path, false) in end.nodes[d.Hi()].pending
  {
    assert Opposite(d.Hi()) == d.lo;
    run := FetchesOver(w, d, s, i, d.Hi(), now);
    end := After(w, s, run);
  }

  /** If need be `lo` first announces its version. */
  lemma HiIsTold(w: World, d: Duel, s: System, now: Time) returns (run: seq<Step>, end: System, i: nat)
    requires Sized(w, s) && Facing(w, d, s) && SmallComing(d, s)
    ensures Leads(w, d, s, run, end) && Facing(w, d, end) && end.nodes[d.Hi()] == s.nodes[d.Hi()]
        && Announces(d, end, i, d.Hi())
  {
    if packet :| packet in s.net && packet.msg.path == d.path && packet.to == d.Hi() {
      i :| 0 <= i < |s.net| && s.net[i] == packet;
      run, end := [], s;
    } else {
      run := FiresAndRecords(w, d, s, d.lo, now);
      end, i := After(w, s, run), |s.net|;
      assert Opposite(d.lo) == d.Hi() && end.net[..|s.net|] == s.net;
    }
  }

  /** Both nodes come to record the small version. */
  lemma BothRecordSmall(w: World, d: Duel, s: System, now: Time) returns (run: seq<Step>, end: System)
    requires OnlySmall(w, d, s) && Watch(d.path, false) in s.nodes[d.Hi()].pending
    ensures Leads(w, d, s, run, end) && SmallSettled(w, d, end)
  {
    assert Opposite(d.Hi()) == d.lo && Opposite(d.lo) == d.Hi();
    var record, recorded := RecordAll(w, d, s, now);
    var fire, fired := FiresSmall(w, d, recorded, d.Hi(), now);
    Then(w, d, s, record, recorded, fire, fired);
    run := record + fire;
    if d.path in fired.nodes[d.lo].records {
      end := fired;
    } else {
      var more;
      more, end := LoRecordsSmall(w, d, fired, now);
      Then(w, d, s, run, fired, more, end);
      run := run + more;
    }
  }

  lemma StaysOnlySmall(w: World, d: Duel, s: System, i: nat, now: Time)
    requires OnlySmall(w, d, s) && NoJobs(d, s) && i < |s.net|
    ensures var woken := System(s.nodes[d.lo := Write(s.nodes[d.lo], d.path, d.small, now)], RemoveAt(s.net, i),
        s.jobs);
            OnlySmall(w, d, woken) && NoJobs(d, woken)
  {
  }

  lemma LoFetchesAndRecords(w: World, d: Duel, s: System, i: nat, now: Time) returns (run: seq<Step>, end: System)
    requires OnlySmall(w, d, s) && NoJobs(d, s) && d.path !in s.nodes[d.lo].records && Announces(d, s, i, d.lo)
    ensures Leads(w, d, s, run, end) && OnlySmall(w, d, end) && NoJobs(d, end)
    ensures Recorded(w, d.path, d.small, end.nodes[d.lo]) && end.nodes[d.Hi()] == s.nodes[d.Hi()]
  {
    var fetch := FetchesOver(w, d, s, i, d.lo, now);
    var woken := System(s.nodes[d.lo := Write(s.nodes[d.lo], d.path, d.small, now)], RemoveAt(s.net, i), s.jobs);
    StaysOnlySmall(w, d, s, i, now);
    run, end := FiresSmall(w, d, woken, d.lo, now);
    Then(w, d, s, fetch, woken, run, end);
    run := fetch + run;
  }

  lemma BothRecordedIsSettled(w: World, d: Duel, s: System)
    requires OnlySmall(w, d, s) && NoJobs(d, s)
    requires Recorded(w, d.path, d.small, s.nodes[d.lo]) && Recorded(w, d.path, d.small, s.nodes[d.Hi()])
    ensures SmallSettled(w, d, s)
  {
  }

  lemma LoRecordsSmall(w: World, d: Duel, s: System, now: Time) returns (run: seq<Step>, end: System)
    requires OnlySmall(w, d, s) && NoJobs(d, s) && d.path !in s.nodes[d.lo].records
    requires Recorded(w, d.path, d.small, s.nodes[d.Hi()]) && exists i :: Announces(d, s, i, d.lo)
    ensures Leads(w, d, s, run, end) && SmallSettled(w, d, end)
  {
    if Watch(d.path, false) in s.nodes[d.lo].pending {
      run, end := FiresSmall(w, d, s, d.lo, now);
    } else {
      var i :| Announces(d, s, i, d.lo);
      run, end := LoFetchesAndRecords(w, d, s, i, now);
    }
    BothRecordedIsSettled(w, d, end);
  }

  /** Without a record at `hi`, an announcement of the small version can replace the large one everywhere, for good. */
  lemma SmallVersionTakesOver(w: World, d: Duel, s: System, now: Time) returns (run: seq<Step>)
    requires Sized(w, s) && Facing(w, d, s) && SmallComing(d, s) && d.path !in s.nodes[d.Hi()].records
    ensures Silent(w, d, s, run) && |After(w, s, run).nodes| == 2
    ensures forall n :: 0 <= n < 2 ==>
              OnDisk(d.path, d.small, After(w, s, run).nodes[n])
                  && Recorded(w, d.path, d.small, After(w, s, run).nodes[n])
  {
    var tell, told, i := HiIsTold(w, d, s, now);
    var fetch, lost := HiIsOverwritten(w, d, told, i, now);
    Then(w, d, s, tell, told, fetch, lost);
    var record, settled := BothRecordSmall(w, d, lost, now);
    Then(w, d, s, tell + fetch, lost, record, settled);
    var drain := SettledFallsSilent(w, d, settled, now);
    Then(w, d, s, tell + fetch + record, settled, drain, After(w, settled, drain));
    run := tell + fetch + record + drain;
  }

  /**
   Every silent outcome has the large version on both disks, exactly if `hi` has a record or is not told of the
   small one.
   */
  lemma DisksConvergeExactly(w: World, d: Duel, s: System)
    requires Sized(w, s) && Facing(w, d, s)
    ensures (forall run :: Silent(w, d, s, run) ==> BothHold(d, d.large, After(w, s, run)))
            <==> d.path in s.nodes[d.Hi()].records || !SmallComing(d, s)
  {
    if d.path in s.nodes[d.Hi()].records || !SmallComing(d, s) {
      forall run | Silent(w, d, s, run)
        ensures BothHold(d, d.large, After(w, s, run))
      {
        if d.path in s.nodes[d.Hi()].records {
          LargeVersionWins(w, d, s, run);
        } else {
          UnopposedVersionWins(w, d, s, run);
        }
      }
    } else {
      var run := SmallVersionTakesOver(w, d, s, 0);
      assert !OnDisk(d.path, d.large, After(w, s, run).nodes[0]);
    }
  }

  // ---- Two concrete starts -----------------------------------------------

  /** A node holding the content without a record, woken. */
  ghost function Bare(d: Duel, content: Content): Node {
    Node(map[d.path := File(content, 0)], map[], {Watch(d.path, false)})
  }

  /** A node holding the content with its record and nothing pending. */
  ghost function Done(w: World, d: Duel, content: Content): Node {
    Node(map[d.path := File(content, 0)], map[d.path := Record(|content|, 0, w.hash(content), 0, "synced")], {})
  }

  ghost function Pair(d: Duel, lo: Node, hi: Node): seq<Node> {
    if d.lo == 0 then [lo, hi] else [hi, lo]
  }

  /** Both nodes have just written the path; neither has published. */
  ghost function BothEdited(d: Duel): System {
    System(Pair(d, Bare(d, d.small), Bare(d, d.large)), [], [])
  }

  lemma UnpublishedLargeVersionIsLost(w: World, d: Duel) returns (run: seq<Step>)
    requires Fair(w, d)
    ensures Sized(w, BothEdited(d)) && Possible(w, BothEdited(d), run) && forall step :: step in run ==>
        HandsOff(d.path, step)
    ensures var s' := After(w, BothEdited(d), run);
            && Quiet(d.path, s')
            && forall n :: 0 <= n < 2 ==>
                 OnDisk(d.path, d.small, s'.nodes[n]) && Recorded(w, d.path, d.small, s'.nodes[n])
  {
    run := SmallVersionTakesOver(w, d, BothEdited(d), 0);
  }

  /** `hi` has published the large version; `lo` has written the small one and published nothing. */
  ghost function LargeAnnounced(w: World, d: Duel): System {
    System(Pair(d, Bare(d, d.small), Done(w, d, d.large)),
           [Packet(d.lo, Message(Event, d.path, [], w.hash(d.large), |d.large|, 0, d.Hi()))], [])
  }

  /** Silence, both disks with the large version, and a record that names the small one. */
  lemma RecordCanStayStale(w: World, d: Duel) returns (run: seq<Step>)
    requires Fair(w, d)
    ensures LargePublished(w, d, LargeAnnounced(w, d)) && Sized(w, LargeAnnounced(w, d))
    ensures Possible(w, LargeAnnounced(w, d), run) && forall step :: step in run ==> HandsOff(d.path, step)
    ensures var s' := After(w, LargeAnnounced(w, d), run);
            && Quiet(d.path, s') && BothHold(d, d.large, s')
            && Recorded(w, d.path, d.small, s'.nodes[d.lo]) && !Recorded(w, d.path, d.large, s'.nodes[d.lo])
  {
    var s := LargeAnnounced(w, d);
    assert s.net[0] in s.net;
    run := StaleRecordFollows(w, d, s, 0);
    LargeVersionWins(w, d, s, run);
  }
}
