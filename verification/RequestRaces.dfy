/**
 Requests under interleaving. A handler reads the node's records at several moments, and
 publishes its request later still; in between, the node's own publications are recorded.
 When can a request go out over a record that does not grant it?
 */
module RequestRaces {
  import opened Prelude
  import opened GoTime
  import opened FileSync
  import opened Gossip
  import opened Work

  // ---- What the handler looks at -----------------------------------------

  /** What a decision can see of a record, whatever the clock. */
  function Core(record: Record): Record {
    record.(lastSync := 0, syncStatus := "")
  }

  /** The record grants the request: another version, and not one that the strategy ranks below it. */
  predicate Grants(strategy: Strategy, record: Record, event: FileEvent) {
    record.checksum != event.checksum && (Contested(record, event) ==> Prefers(strategy, record, event))
  }

  predicate PassesFilter(record: Option<Record>, event: FileEvent) {
    IsFileInWatchedPaths(event.path) && (record.None? || record.value.checksum != event.checksum)
  }

  /** At a suitable time the conflict test, or else the strategy, lets the event pass. */
  predicate PassesTest(strategy: Strategy, record: Option<Record>, event: FileEvent) {
    record.None? || !Contested(record.value, event) || record.value.checksum == event.checksum
    || Prefers(strategy, record.value, event)
  }

  predicate Convinces(strategy: Strategy, record: Option<Record>, event: FileEvent) {
    record.Some? && Prefers(strategy, record.value, event)
  }

  // ---- The state of one path at one node ----------------------------------

  /** The record, the publications still to be recorded, and the stages that handlers of one event are at. */
  datatype Desk = Desk(record: Option<Record>, outstanding: multiset<Record>,
                       checked: bool, conflicted: bool, wanted: bool)

  /** The record is f, or becomes it after the present one and any of the others. */
  ghost predicate Later(others: multiset<Record>, f: Record, record: Option<Record>) {
    record == Some(f) || (record.Some? && record.value in others)
  }

  /** Some handler can reach its request while f is the record, f being recorded after any of `others`. */
  ghost predicate Ahead(strategy: Strategy, event: FileEvent, d: Desk, others: multiset<Record>, f: Record) {
    || d.wanted
    || (d.conflicted && exists r :: (r == d.record || Later(others, f, r)) && Convinces(strategy, r, event))
    || (d.checked && exists r :: (r == d.record || Later(others, f, r)) && PassesTest(strategy, r, event))
    || (PassesFilter(d.record, event)
        && exists r :: (r == d.record || Later(others, f, r)) && PassesTest(strategy, r, event))
    || ((exists x :: x in others && PassesFilter(Some(x), event))
        && exists r :: Later(others, f, r) && PassesTest(strategy, r, event))
  }

  /** The same with f recorded already. */
  ghost predicate Now(strategy: Strategy, event: FileEvent, d: Desk, f: Record) {
    || d.wanted
    || (d.conflicted && Convinces(strategy, Some(f), event))
    || (d.checked && PassesTest(strategy, Some(f), event))
  }

  /** A request for the event may go out over f, which does not grant it. */
  ghost predicate Spoils(strategy: Strategy, event: FileEvent, d: Desk, f: Record) {
    && !Grants(strategy, f, event)
    && ((d.record == Some(f) && Now(strategy, event, d, f))
        || (f in d.outstanding && Ahead(strategy, event, d, d.outstanding - multiset{f}, f)))
  }

  ghost predicate Safe(strategy: Strategy, event: FileEvent, d: Desk) {
    forall f :: !Spoils(strategy, event, d, f)
  }

  lemma FewerHandlersAreSafe(strategy: Strategy, event: FileEvent, d: Desk, d': Desk)
    requires Safe(strategy, event, d) && d'.record == d.record && d'.outstanding == d.outstanding
    requires (d'.checked ==> d.checked) && (d'.conflicted ==> d.conflicted) && (d'.wanted ==> d.wanted)
    ensures Safe(strategy, event, d')
  {
    forall f
      ensures !Spoils(strategy, event, d', f)
    {
      assert !Spoils(strategy, event, d, f);
    }
  }

  lemma RecordingIsSafe(strategy: Strategy, event: FileEvent, d: Desk, y: Record)
    requires Safe(strategy, event, d) && y in d.outstanding
    ensures Safe(strategy, event, d.(record := Some(y), outstanding := d.outstanding - multiset{y}))
  {
    var d' := d.(record := Some(y), outstanding := d.outstanding - multiset{y});
    forall f
      ensures !Spoils(strategy, event, d', f)
    {
      assert !Spoils(strategy, event, d, f);
      assert y in d.outstanding - multiset{f} || y == f;
      if Spoils(strategy, event, d', f) && f in d'.outstanding {
        AheadBefore(strategy, event, d, y, f);
      }
    }
  }

  /** What f can follow after y is recorded, it can follow now. */
  lemma AheadBefore(strategy: Strategy, event: FileEvent, d: Desk, y: Record, f: Record)
    requires y in d.outstanding && f in d.outstanding - multiset{y}
    requires Ahead(strategy, event, d.(record := Some(y), outstanding := d.outstanding - multiset{y}),
                   d.outstanding - multiset{y} - multiset{f}, f)
    ensures Ahead(strategy, event, d, d.outstanding - multiset{f}, f)
  {
    var others, rest := d.outstanding - multiset{f}, d.outstanding - multiset{y} - multiset{f};
    assert y in others && rest <= others;
    assert forall r :: r == Some(y) || Later(rest, f, r) ==> Later(others, f, r);
  }

  lemma HearingIsSafe(strategy: Strategy, event: FileEvent, d: Desk)
    requires Safe(strategy, event, d) && PassesFilter(d.record, event)
    ensures Safe(strategy, event, d.(checked := true))
  {
    forall f
      ensures !Spoils(strategy, event, d.(checked := true), f)
    {
      assert !Spoils(strategy, event, d, f);
    }
  }

  lemma ConflictIsSafe(strategy: Strategy, event: FileEvent, d: Desk)
    requires Safe(strategy, event, d) && d.checked
    ensures Safe(strategy, event, d.(conflicted := true))
  {
    forall f
      ensures !Spoils(strategy, event, d.(conflicted := true), f)
    {
      assert !Spoils(strategy, event, d, f);
      assert forall r :: Convinces(strategy, r, event) ==> PassesTest(strategy, r, event);
    }
  }

  lemma WantingIsSafe(strategy: Strategy, event: FileEvent, d: Desk)
    requires Safe(strategy, event, d)
    requires (d.checked && PassesTest(strategy, d.record, event)) || (d.conflicted
        && Convinces(strategy, d.record, event))
    ensures Safe(strategy, event, d.(wanted := true))
  {
    forall f
      ensures !Spoils(strategy, event, d.(wanted := true), f)
    {
      assert !Spoils(strategy, event, d, f);
    }
  }

  // ---- The desk of a node in the mesh -------------------------------------

  function RecordAt(s: System, n: Peer, path: Path): Option<Record>
    requires n < |s.nodes|
  {
    if path in s.nodes[n].records then Some(Core(s.nodes[n].records[path])) else None
  }

  /** What a publication's goroutine will record. */
  function Written(job: Job, n: Peer, path: Path): multiset<Record> {
    if job.owner == n && job.task.Recording? && job.task.event.path == path
    then multiset{Core(RecordOf(job.task.event, 0))} else multiset{}
  }

  function Unrecorded(jobs: seq<Job>, n: Peer, path: Path): multiset<Record> {
    if jobs == [] then multiset{} else Written(jobs[0], n, path) + Unrecorded(jobs[1..], n, path)
  }

  function Seen(w: World, node: Node, path: Path, removed: bool): Record {
    Core(RecordOf(Observe(w.hash, node.disk, path, removed, 0), 0))
  }

  function Unannounced(w: World, node: Node, path: Path): multiset<Record> {
    (if Watch(path, false) in node.pending then multiset{Seen(w, node, path, false)} else multiset{})
    + (if Watch(path, true) in node.pending then multiset{Seen(w, node, path, true)} else multiset{})
  }

  /** The records that the node's own publications of the path have yet to write. */
  function Outstanding(w: World, s: System, n: Peer, path: Path): multiset<Record>
    requires n < |s.nodes|
  {
    Unrecorded(s.jobs, n, path) + Unannounced(w, s.nodes[n], path)
  }

  function View(w: World, s: System, n: Peer, event: FileEvent): Desk
    requires n < |s.nodes|
  {
    Desk(RecordAt(s, n, event.path), Outstanding(w, s, n, event.path),
         Job(n, Checked(event)) in s.jobs, Job(n, Conflicted(event)) in s.jobs, Job(n, Wanted(event)) in s.jobs)
  }

  lemma {:induction false} UnrecordedConcat(a: seq<Job>, b: seq<Job>, n: Peer, path: Path)
    ensures Unrecorded(a + b, n, path) == Unrecorded(a, n, path) + Unrecorded(b, n, path)
  {
    if a == [] {
      assert a + b == b;
    } else {
      var first, rest := Written(a[0], n, path), Unrecorded(a[1..], n, path);
      assert (a + b)[0] == a[0] && (a + b)[1..] == a[1..] + b;
      UnrecordedConcat(a[1..], b, n, path);
      assert first + (rest + Unrecorded(b, n, path)) == (first + rest) + Unrecorded(b, n, path);
    }
  }

  lemma UnrecordedOne(jobs: seq<Job>, job: Job, n: Peer, path: Path)
    ensures Unrecorded(jobs + [job], n, path) == Unrecorded(jobs, n, path) + Written(job, n, path)
  {
    UnrecordedConcat(jobs, [job], n, path);
    assert [job][1..] == [];
  }

  lemma UnrecordedRemove(jobs: seq<Job>, j: nat, n: Peer, path: Path)
    requires j < |jobs|
    ensures Unrecorded(jobs, n, path) == Unrecorded(RemoveAt(jobs, j), n, path) + Written(jobs[j], n, path)
  {
    UnrecordedConcat(jobs[..j], jobs[j..], n, path);
    UnrecordedConcat(jobs[..j], jobs[j + 1..], n, path);
    assert jobs == jobs[..j] + jobs[j..] && jobs[j..][1..] == jobs[j + 1..];
  }

  /** A record to be written has a goroutine that will write it. */
  lemma {:induction false} UnrecordedHasJob(jobs: seq<Job>, n: Peer, path: Path, f: Record) returns (j: nat)
    requires f in Unrecorded(jobs, n, path)
    ensures j < |jobs| && Written(jobs[j], n, path) == multiset{f}
  {
    if f in Written(jobs[0], n, path) {
      j := 0;
    } else {
      var k := UnrecordedHasJob(jobs[1..], n, path, f);
      j := k + 1;
    }
  }

  // ---- Runs --------------------------------------------------------------

  /** No user touches the path, and no response for it is delivered to the node. */
  predicate Apart(path: Path, n: Peer, s: System, step: Step)
    requires Enabled(s, step)
  {
    && HandsOff(path, step)
    && (step.Deliver? ==> !(s.net[step.index].to == n && s.net[step.index].msg.path == path
                            && s.net[step.index].msg.kind.Response?))
  }

  ghost predicate Isolated(w: World, s: System, run: seq<Step>, n: Peer, path: Path)
    requires Sized(w, s)
    decreases |run|
  {
    run == [] ||
    (Enabled(s, run[0]) && Apart(path, n, s, run[0]) && Isolated(w, Apply(w, s, run[0]), run[1..], n, path))
  }

  /** If the step publishes the node's request for the event, the record of the path grants it, or there is none. */
  predicate Rightful(w: World, s: System, step: Step, n: Peer, event: FileEvent)
    requires Sized(w, s) && Enabled(s, step) && n < |s.nodes|
  {
    step.Advance? && s.jobs[step.index] == Job(n, Wanted(event)) && event.path in s.nodes[n].records ==>
      Grants(w.strategies[n], s.nodes[n].records[event.path], event)
  }

  ghost predicate AllRightful(w: World, s: System, run: seq<Step>, n: Peer, event: FileEvent)
    requires Sized(w, s) && n < |s.nodes| && Isolated(w, s, run, n, event.path)
    decreases |run|
  {
    run == [] ||
    (Rightful(w, s, run[0], n, event) && AllRightful(w, Apply(w, s, run[0]), run[1..], n, event))
  }

  /** Where a conflict was found there is a record: records are never removed. */
  ghost predicate ConflictsRecorded(s: System, n: Peer, path: Path)
    requires n < |s.nodes|
  {
    forall job :: job in s.jobs && job.owner == n && job.task.Conflicted? && job.task.event.path == path ==>
      path in s.nodes[n].records
  }

  // ---- Every step keeps a safe desk safe -----------------------------------

  lemma SameNode(w: World, s: System, nodes: seq<Node>, net: seq<Packet>, n: Peer, event: FileEvent)
    requires n < |s.nodes| && |nodes| == |s.nodes|
    requires event.path in nodes[n].records <==> event.path in s.nodes[n].records
    requires event.path in nodes[n].records ==>
               Core(nodes[n].records[event.path]) == Core(s.nodes[n].records[event.path])
    requires event.path in nodes[n].disk <==> event.path in s.nodes[n].disk
    requires event.path in nodes[n].disk ==> nodes[n].disk[event.path] == s.nodes[n].disk[event.path]
    requires forall removed :: Watch(event.path, removed) in nodes[n].pending <==>
                               Watch(event.path, removed) in s.nodes[n].pending
    ensures View(w, System(nodes, net, s.jobs), n, event) == View(w, s, n, event)
  {
  }

  lemma SpawnView(w: World, s: System, m: Peer, task: Task, n: Peer, event: FileEvent)
    requires n < |s.nodes|
    ensures var d, d' := View(w, s, n, event), View(w, Spawn(s, m, task), n, event);
            && d'.record == d.record && d'.outstanding == d.outstanding + Written(Job(m, task), n, event.path)
            && (d'.checked <==> d.checked || (m == n && task == Checked(event)))
            && (d'.conflicted <==> d.conflicted || (m == n && task == Conflicted(event)))
            && (d'.wanted <==> d.wanted || (m == n && task == Wanted(event)))
  {
    UnrecordedOne(s.jobs, Job(m, task), n, event.path);
  }

  lemma TakeJobView(w: World, s: System, j: nat, n: Peer, event: FileEvent)
    requires n < |s.nodes| && j < |s.jobs|
    ensures var d, d' := View(w, s, n, event), View(w, s.(jobs := RemoveAt(s.jobs, j)), n, event);
            && d'.record == d.record && d.outstanding == d'.outstanding + Written(s.jobs[j], n, event.path)
            && (d'.checked ==> d.checked) && (d'.conflicted ==> d.conflicted) && (d'.wanted ==> d.wanted)
  {
    UnrecordedRemove(s.jobs, j, n, event.path);
  }

  ghost predicate Guarded(w: World, s: System, n: Peer, event: FileEvent) {
    && Sized(w, s) && n < |s.nodes| && ConflictsRecorded(s, n, event.path)
    && Safe(w.strategies[n], event, View(w, s, n, event))
  }

  lemma GuardedIsRightful(w: World, s: System, step: Step, n: Peer, event: FileEvent)
    requires Guarded(w, s, n, event) && Enabled(s, step)
    ensures Rightful(w, s, step, n, event)
  {
    if step.Advance? && s.jobs[step.index] == Job(n, Wanted(event)) && event.path in s.nodes[n].records {
      assert !Spoils(w.strategies[n], event, View(w, s, n, event), Core(s.nodes[n].records[event.path]));
    }
  }

  /** A step elsewhere: the node's state of the path stays. */
  lemma ElsewhereIsSafe(w: World, s: System, m: Peer, node: Node, net: seq<Packet>, n: Peer, event: FileEvent)
    requires Guarded(w, s, n, event) && m < |s.nodes|
    requires m == n ==>
               && (event.path in node.records <==> event.path in s.nodes[n].records)
               && (event.path in node.records
                   ==> Core(node.records[event.path]) == Core(s.nodes[n].records[event.path]))
               && (event.path in node.disk <==> event.path in s.nodes[n].disk)
               && (event.path in node.disk ==> node.disk[event.path] == s.nodes[n].disk[event.path])
               && (forall removed :: Watch(event.path, removed) in node.pending <==>
                                     Watch(event.path, removed) in s.nodes[n].pending)
    ensures Guarded(w, System(s.nodes[m := node], net, s.jobs), n, event)
  {
    SameNode(w, s, s.nodes[m := node], net, n, event);
  }

  lemma NetIsSafe(w: World, s: System, net: seq<Packet>, n: Peer, event: FileEvent)
    requires Guarded(w, s, n, event)
    ensures Guarded(w, s.(net := net), n, event)
  {
    SameNode(w, s, s.nodes, net, n, event);
  }

  /** A goroutine that says nothing of this event at this node. */
  lemma SpawnIsSafe(w: World, s: System, m: Peer, task: Task, n: Peer, event: FileEvent)
    requires Guarded(w, s, n, event)
    requires m != n || (task.event != event && !(task.Recording? && task.event.path == event.path))
    requires m == n && task.Conflicted? && task.event.path == event.path ==> event.path in s.nodes[n].records
    ensures Guarded(w, Spawn(s, m, task), n, event)
  {
    SpawnView(w, s, m, task, n, event);
    assert View(w, Spawn(s, m, task), n, event) == View(w, s, n, event);
  }

  /** Firing a watcher turns a notification into a goroutine with the same record to write. */
  lemma FireMovesRecord(w: World, node: Node, watch: Watch, n: Peer, now: Time)
    requires watch in node.pending
    ensures var seen := Observe(w.hash, node.disk, watch.path, watch.removed, now);
            Unannounced(w, node, watch.path) ==
            Unannounced(w, node.(pending := node.pending - {watch}), watch.path) + Written(Job(n, Recording(seen)),
                n, watch.path)
  {
    assert Seen(w, node.(pending := node.pending - {watch}), watch.path, true) == Seen(w, node, watch.path, true);
    assert Seen(w, node.(pending := node.pending - {watch}), watch.path, false) == Seen(w, node, watch.path, false);
  }

  lemma OwnFireView(w: World, s: System, n: Peer, watch: Watch, now: Time, event: FileEvent)
    requires n < |s.nodes| && watch in s.nodes[n].pending && watch.path == event.path
    ensures var node := s.nodes[n].(pending := s.nodes[n].pending - {watch});
            var seen := Observe(w.hash, s.nodes[n].disk, watch.path, watch.removed, now);
            View(w, Announce(s.(nodes := s.nodes[n := node]), n, seen, now), n, event) == View(w, s, n, event)
  {
    var node := s.nodes[n].(pending := s.nodes[n].pending - {watch});
    var seen := Observe(w.hash, s.nodes[n].disk, watch.path, watch.removed, now);
    var sent := Send(s.(nodes := s.nodes[n := node]), EventMessage(n, seen, now));
    FireMovesRecord(w, s.nodes[n], watch, n, now);
    SpawnView(w, sent, n, Recording(seen), n, event);
  }

  lemma FireIsSafe(w: World, s: System, m: Peer, watch: Watch, now: Time, n: Peer, event: FileEvent)
    requires Guarded(w, s, n, event) && Enabled(s, Fire(m, watch, now))
    ensures Guarded(w, Apply(w, s, Fire(m, watch, now)), n, event)
  {
    var node := s.nodes[m].(pending := s.nodes[m].pending - {watch});
    var seen := Observe(w.hash, s.nodes[m].disk, watch.path, watch.removed, now);
    var sent := Send(s.(nodes := s.nodes[m := node]), EventMessage(m, seen, now));
    if m == n && watch.path == event.path {
      OwnFireView(w, s, n, watch, now, event);
    } else {
      ElsewhereIsSafe(w, s, m, node, sent.net, n, event);
      SpawnIsSafe(w, sent, m, Recording(seen), n, event);
    }
  }

  lemma HearIsSafe(w: World, s: System, m: Peer, heard: FileEvent, n: Peer, event: FileEvent)
    requires Guarded(w, s, n, event) && m < |s.nodes| && ShouldSyncFile(s.nodes[m].records, heard)
    ensures Guarded(w, Spawn(s, m, Checked(heard)), n, event)
  {
    if m == n && heard == event {
      HearingIsSafe(w.strategies[n], event, View(w, s, n, event));
      SpawnView(w, s, m, Checked(heard), n, event);
      assert View(w, Spawn(s, m, Checked(heard)), n, event) == View(w, s, n, event).(checked := true);
    } else {
      SpawnIsSafe(w, s, m, Checked(heard), n, event);
    }
  }

  lemma DeliverIsSafe(w: World, s: System, i: nat, now: Time, n: Peer, event: FileEvent)
    requires Guarded(w, s, n, event) && Enabled(s, Deliver(i, now)) && Apart(event.path, n, s, Deliver(i, now))
    ensures Guarded(w, Apply(w, s, Deliver(i, now)), n, event)
  {
    var m, msg, rest := s.net[i].to, s.net[i].msg, s.(net := RemoveAt(s.net, i));
    NetIsSafe(w, s, rest.net, n, event);
    if msg.from != m {
      match msg.kind
      case Event =>
        if ShouldSyncFile(s.nodes[m].records, EventOf(msg)) {
          HearIsSafe(w, rest, m, EventOf(msg), n, event);
        }
      case Request =>
        if msg.path in s.nodes[m].disk {
          var response := ResponseMessage(m, msg.path, s.nodes[m].disk[msg.path].content, now);
          NetIsSafe(w, rest, Send(rest, response).net, n, event);
        }
      case Response => ElsewhereIsSafe(w, rest, m, Write(s.nodes[m], msg.path, msg.data, now), rest.net, n, event);
      case Other(_) =>
    }
  }

  lemma TakeJobIsSafe(w: World, s: System, j: nat, n: Peer, event: FileEvent)
    requires Guarded(w, s, n, event) && j < |s.jobs| && Written(s.jobs[j], n, event.path) == multiset{}
    ensures Guarded(w, s.(jobs := RemoveAt(s.jobs, j)), n, event)
  {
    TakeJobView(w, s, j, n, event);
    FewerHandlersAreSafe(w.strategies[n], event, View(w, s, n, event), View(w, s.(jobs := RemoveAt(s.jobs, j)), n,
        event));
  }

  /** The handler of the event goes on to its next stage, which the record allows. */
  lemma NextStageIsSafe(w: World, s: System, j: nat, next: Task, n: Peer, event: FileEvent)
    requires Guarded(w, s, n, event) && j < |s.jobs| && s.jobs[j].owner == n
    requires var d := View(w, s, n, event);
             || (next == Conflicted(event) && s.jobs[j].task == Checked(event) && event.path in s.nodes[n].records)
             || (next == Wanted(event) && s.jobs[j].task == Checked(event)
                 && PassesTest(w.strategies[n], d.record, event))
             || (next == Wanted(event) && s.jobs[j].task == Conflicted(event)
                 && Convinces(w.strategies[n], d.record, event))
    ensures Guarded(w, Spawn(s.(jobs := RemoveAt(s.jobs, j)), n, next), n, event)
  {
    var d, rest := View(w, s, n, event), s.(jobs := RemoveAt(s.jobs, j));
    var d' := if next.Conflicted? then d.(conflicted := true) else d.(wanted := true);
    if next.Conflicted? {
      ConflictIsSafe(w.strategies[n], event, d);
    } else {
      WantingIsSafe(w.strategies[n], event, d);
    }
    TakeJobView(w, s, j, n, event);
    SpawnView(w, rest, n, next, n, event);
    FewerHandlersAreSafe(w.strategies[n], event, d', View(w, Spawn(rest, n, next), n, event));
  }

  lemma TestIsSafe(w: World, s: System, j: nat, now: Time, n: Peer, event: FileEvent)
    requires Guarded(w, s, n, event) && Enabled(s, Advance(j, now)) && s.jobs[j].task.Checked?
    ensures Guarded(w, Apply(w, s, Advance(j, now)), n, event)
  {
    var m, heard := s.jobs[j].owner, s.jobs[j].task.event;
    var next := if HasConflict(s.nodes[m].records, heard, now) then Conflicted(heard) else Wanted(heard);
    if m == n && heard == event {
      NextStageIsSafe(w, s, j, next, n, event);
    } else {
      TakeJobIsSafe(w, s, j, n, event);
      SpawnIsSafe(w, s.(jobs := RemoveAt(s.jobs, j)), m, next, n, event);
    }
  }

  /** A conflict mark is invisible to the decisions. */
  lemma MarkIsSafe(w: World, s: System, m: Peer, path: Path, n: Peer, event: FileEvent)
    requires Guarded(w, s, n, event) && m < |s.nodes|
    requires m == n && path == event.path ==> path in s.nodes[n].records
    ensures Guarded(w, s.(nodes := s.nodes[m := s.nodes[m].(records := MarkConflict(s.nodes[m].records, path))]), n,
        event)
  {
    ElsewhereIsSafe(w, s, m, s.nodes[m].(records := MarkConflict(s.nodes[m].records, path)), s.net, n, event);
  }

  lemma VerdictIsSafe(w: World, s: System, j: nat, now: Time, n: Peer, event: FileEvent)
    requires Guarded(w, s, n, event) && Enabled(s, Advance(j, now)) && s.jobs[j].task.Conflicted?
    ensures Guarded(w, Apply(w, s, Advance(j, now)), n, event)
  {
    var m, heard, rest := s.jobs[j].owner, s.jobs[j].task.event, s.(jobs := RemoveAt(s.jobs, j));
    assert s.jobs[j] in s.jobs;
    TakeJobIsSafe(w, s, j, n, event);
    if w.strategies[m].Manually? {
      MarkIsSafe(w, rest, m, heard.path, n, event);
    } else {
      assert s.nodes[m := s.nodes[m].(records := s.nodes[m].records)] == s.nodes;
      if ResolveConflict(w.strategies[m], s.nodes[m].records, heard).1 {
        if m == n && heard == event {
          NextStageIsSafe(w, s, j, Wanted(event), n, event);
        } else {
          SpawnIsSafe(w, rest, m, Wanted(heard), n, event);
        }
      }
    }
  }

  lemma WrittenView(w: World, s: System, n: Peer, seen: FileEvent, now: Time, event: FileEvent)
    requires n < |s.nodes| && seen.path == event.path
    ensures var node := s.nodes[n].(records := s.nodes[n].records[seen.path := RecordOf(seen, now)]);
            View(w, s.(nodes := s.nodes[n := node]), n, event) ==
            View(w, s, n, event).(record := Some(Core(RecordOf(seen, 0))))
  {
  }

  lemma OwnRecordView(w: World, s: System, j: nat, now: Time, n: Peer, event: FileEvent)
    requires Sized(w, s) && n < |s.nodes| && j < |s.jobs| && s.jobs[j].owner == n
    requires s.jobs[j].task.Recording? && s.jobs[j].task.event.path == event.path
    ensures var d, d' := View(w, s, n, event), View(w, Apply(w, s, Advance(j, now)), n, event);
            var y := Core(RecordOf(s.jobs[j].task.event, 0));
            && y in d.outstanding && d'.record == Some(y) && d'.outstanding == d.outstanding - multiset{y}
            && (d'.checked ==> d.checked) && (d'.conflicted ==> d.conflicted) && (d'.wanted ==> d.wanted)
  {
    TakeJobView(w, s, j, n, event);
    WrittenView(w, s.(jobs := RemoveAt(s.jobs, j)), n, s.jobs[j].task.event, now, event);
  }

  lemma RecordIsSafe(w: World, s: System, j: nat, now: Time, n: Peer, event: FileEvent)
    requires Guarded(w, s, n, event) && Enabled(s, Advance(j, now)) && s.jobs[j].task.Recording?
    ensures Guarded(w, Apply(w, s, Advance(j, now)), n, event)
  {
    var m, seen, rest := s.jobs[j].owner, s.jobs[j].task.event, s.(jobs := RemoveAt(s.jobs, j));
    var node := s.nodes[m].(records := s.nodes[m].records[seen.path := RecordOf(seen, now)]);
    if m == n && seen.path == event.path {
      OwnRecordView(w, s, j, now, n, event);
      var d, y := View(w, s, n, event), Core(RecordOf(seen, 0));
      RecordingIsSafe(w.strategies[n], event, d, y);
      FewerHandlersAreSafe(w.strategies[n], event, d.(record := Some(y), outstanding := d.outstanding - multiset{y}),
                           View(w, Apply(w, s, Advance(j, now)), n, event));
    } else {
      TakeJobIsSafe(w, s, j, n, event);
      ElsewhereIsSafe(w, rest, m, node, rest.net, n, event);
    }
  }

  lemma PublishIsSafe(w: World, s: System, j: nat, now: Time, n: Peer, event: FileEvent)
    requires Guarded(w, s, n, event) && Enabled(s, Advance(j, now)) && s.jobs[j].task.Wanted?
    ensures Guarded(w, Apply(w, s, Advance(j, now)), n, event)
  {
    var rest := s.(jobs := RemoveAt(s.jobs, j));
    TakeJobIsSafe(w, s, j, n, event);
    NetIsSafe(w, rest, Send(rest, RequestMessage(s.jobs[j].owner, s.jobs[j].task.event.path, now)).net, n, event);
  }

  lemma AnnounceIsSafe(w: World, s: System, m: Peer, seen: FileEvent, now: Time, n: Peer, event: FileEvent)
    requires Guarded(w, s, n, event) && seen.path != event.path
    ensures Guarded(w, Announce(s, m, seen, now), n, event)
  {
    NetIsSafe(w, s, Send(s, EventMessage(m, seen, now)).net, n, event);
    SpawnIsSafe(w, Send(s, EventMessage(m, seen, now)), m, Recording(seen), n, event);
  }

  lemma StepIsSafe(w: World, s: System, step: Step, n: Peer, event: FileEvent)
    requires Guarded(w, s, n, event) && Enabled(s, step) && Apart(event.path, n, s, step)
    ensures Guarded(w, Apply(w, s, step), n, event)
  {
    match step
    case Edit(m, p, c, now) => ElsewhereIsSafe(w, s, m, Write(s.nodes[m], p, c, now), s.net, n, event);
    case Delete(m, p) => ElsewhereIsSafe(w, s, m, FileSync.Remove(s.nodes[m], p), s.net, n, event);
    case Fire(m, watch, now) => FireIsSafe(w, s, m, watch, now, n, event);
    case SyncFile(m, p, now) => AnnounceIsSafe(w, s, m, Observe(w.hash, s.nodes[m].disk, p, false, now), now, n, event);
    case Deliver(i, now) => DeliverIsSafe(w, s, i, now, n, event);
    case Advance(j, now) =>
      match s.jobs[j].task
      case Checked(_) => TestIsSafe(w, s, j, now, n, event);
      case Conflicted(_) => VerdictIsSafe(w, s, j, now, n, event);
      case Wanted(_) => PublishIsSafe(w, s, j, now, n, event);
      case Recording(_) => RecordIsSafe(w, s, j, now, n, event);
  }

  lemma {:induction false} SafeRunsAreRightful(w: World, s: System, run: seq<Step>, n: Peer, event: FileEvent)
    requires Guarded(w, s, n, event) && Isolated(w, s, run, n, event.path)
    ensures AllRightful(w, s, run, n, event)
    decreases |run|
  {
    if run != [] {
      GuardedIsRightful(w, s, run[0], n, event);
      StepIsSafe(w, s, run[0], n, event);
      SafeRunsAreRightful(w, Apply(w, s, run[0]), run[1..], n, event);
    }
  }

  // ---- An unsafe desk is spoiled -------------------------------------------

  /** Some run publishes the request over a record that does not grant it. */
  ghost predicate Spoilable(w: World, s: System, n: Peer, event: FileEvent)
    requires Sized(w, s) && n < |s.nodes|
  {
    exists run :: Isolated(w, s, run, n, event.path) && !AllRightful(w, s, run, n, event)
  }

  lemma SpoilableBefore(w: World, s: System, step: Step, n: Peer, event: FileEvent)
    requires Sized(w, s) && n < |s.nodes| && Enabled(s, step) && Apart(event.path, n, s, step)
    requires Spoilable(w, Apply(w, s, step), n, event)
    ensures Spoilable(w, s, n, event)
  {
    var run :| Isolated(w, Apply(w, s, step), run, n, event.path) && !AllRightful(w, Apply(w, s, step), run, n, event);
    assert ([step] + run)[1..] == run;
    assert Isolated(w, s, [step] + run, n, event.path);
  }

  /** The announcement of the event is on its way to the node. */
  ghost predicate Announced(s: System, n: Peer, event: FileEvent) {
    exists packet :: packet in s.net && packet.to == n && packet.msg.kind.Event? && packet.msg.from != n
                     && EventOf(packet.msg) == event
  }

  /** The record is in the way already. */
  lemma PublishSpoils(w: World, s: System, n: Peer, event: FileEvent, f: Record)
    requires Sized(w, s) && n < |s.nodes| && !Grants(w.strategies[n], f, event)
    requires View(w, s, n, event).wanted && View(w, s, n, event).record == Some(f)
    ensures Spoilable(w, s, n, event)
  {
    var j :| 0 <= j < |s.jobs| && s.jobs[j] == Job(n, Wanted(event));
    var run := [Advance(j, 0)];
    assert run[1..] == [] && Isolated(w, Apply(w, s, run[0]), [], n, event.path);
    assert Isolated(w, s, run, n, event.path) && !Rightful(w, s, run[0], n, event);
  }

  /** One of the outstanding publications is recorded; the handlers and the announcement stay where they are. */
  ghost predicate Recorded(w: World, s: System, s': System, n: Peer, event: FileEvent, f: Record)
    requires n < |s.nodes| && n < |s'.nodes|
  {
    && Sized(w, s') && (Announced(s, n, event) ==> Announced(s', n, event))
    && var d, d' := View(w, s, n, event), View(w, s', n, event);
       && f in d.outstanding && d'.record == Some(f) && d'.outstanding == d.outstanding - multiset{f}
       && (d.checked ==> d'.checked) && (d.wanted ==> d'.wanted)
  }

  lemma JobRecords(w: World, s: System, n: Peer, event: FileEvent, f: Record, j: nat) returns (s': System)
    requires Sized(w, s) && n < |s.nodes| && j < |s.jobs| && Written(s.jobs[j], n, event.path) == multiset{f}
    ensures |s'.nodes| == |s.nodes| && Recorded(w, s, s', n, event, f)
    ensures Spoilable(w, s', n, event) ==> Spoilable(w, s, n, event)
  {
    var step := Advance(j, 0);
    s' := Apply(w, s, step);
    assert f in Written(s.jobs[j], n, event.path);
    OwnRecordView(w, s, j, 0, n, event);
    if Spoilable(w, s', n, event) {
      SpoilableBefore(w, s, step, n, event);
    }
  }

  /** A notification is turned into a goroutine first. */
  lemma WatchRecords(w: World, s: System, n: Peer, event: FileEvent, removed: bool) returns (s': System)
    requires Sized(w, s) && n < |s.nodes| && Watch(event.path, removed) in s.nodes[n].pending
    ensures |s'.nodes| == |s.nodes| && Recorded(w, s, s', n, event, Seen(w, s.nodes[n], event.path, removed))
    ensures Spoilable(w, s', n, event) ==> Spoilable(w, s, n, event)
  {
    var watch := Watch(event.path, removed);
    var step := Fire(n, watch, 0);
    var fired := Apply(w, s, step);
    OwnFireView(w, s, n, watch, 0, event);
    s' := JobRecords(w, fired, n, event, Seen(w, s.nodes[n], event.path, removed), |s.jobs|);
    if Spoilable(w, s', n, event) {
      SpoilableBefore(w, s, step, n, event);
    }
  }

  lemma Records(w: World, s: System, n: Peer, event: FileEvent, f: Record) returns (s': System)
    requires Sized(w, s) && n < |s.nodes| && f in Outstanding(w, s, n, event.path)
    ensures |s'.nodes| == |s.nodes| && Recorded(w, s, s', n, event, f)
    ensures Spoilable(w, s', n, event) ==> Spoilable(w, s, n, event)
  {
    if f in Unrecorded(s.jobs, n, event.path) {
      var j := UnrecordedHasJob(s.jobs, n, event.path, f);
      s' := JobRecords(w, s, n, event, f, j);
    } else if Watch(event.path, false) in s.nodes[n].pending && f == Seen(w, s.nodes[n], event.path, false) {
      s' := WatchRecords(w, s, n, event, false);
    } else {
      s' := WatchRecords(w, s, n, event, true);
    }
  }

  lemma WantedSpoils(w: World, s: System, n: Peer, event: FileEvent, f: Record)
    requires Sized(w, s) && n < |s.nodes| && !Grants(w.strategies[n], f, event)
    requires View(w, s, n, event).wanted && f in View(w, s, n, event).outstanding
    ensures Spoilable(w, s, n, event)
  {
    var s' := Records(w, s, n, event, f);
    PublishSpoils(w, s', n, event, f);
  }

  /** A checked event passes: at once when the window is over, or by verdict of the strategy. */
  lemma Passes(w: World, s: System, n: Peer, event: FileEvent) returns (s': System)
    requires Sized(w, s) && n < |s.nodes|
    requires View(w, s, n, event).checked && PassesTest(w.strategies[n], View(w, s, n, event).record, event)
    ensures |s'.nodes| == |s.nodes| && Sized(w, s')
    ensures var d, d' := View(w, s, n, event), View(w, s', n, event);
            d'.record == d.record && d'.outstanding == d.outstanding && d'.wanted
    ensures Spoilable(w, s', n, event) ==> Spoilable(w, s, n, event)
  {
    var records := s.nodes[n].records;
    var now := if event.path in records then records[event.path].lastSync + 5 * SECOND else 0;
    var j :| 0 <= j < |s.jobs| && s.jobs[j] == Job(n, Checked(event));
    var rest := s.(jobs := RemoveAt(s.jobs, j));
    var tested := Apply(w, s, Advance(j, now));
    TakeJobView(w, s, j, n, event);
    SpawnView(w, rest, n, if HasConflict(records, event, now) then Conflicted(event) else Wanted(event), n, event);
    if HasConflict(records, event, now) {
      s' := Convinced(w, tested, n, event, |rest.jobs|);
    } else {
      s' := tested;
    }
    if Spoilable(w, s', n, event) {
      SpoilableBefore(w, s, Advance(j, now), n, event);
    }
  }

  lemma Convinced(w: World, s: System, n: Peer, event: FileEvent, j: nat) returns (s': System)
    requires Sized(w, s) && n < |s.nodes| && j < |s.jobs| && s.jobs[j] == Job(n, Conflicted(event))
    requires Convinces(w.strategies[n], View(w, s, n, event).record, event)
    ensures |s'.nodes| == |s.nodes| && Sized(w, s')
    ensures var d, d' := View(w, s, n, event), View(w, s', n, event);
            d'.record == d.record && d'.outstanding == d.outstanding && d'.wanted
    ensures Spoilable(w, s', n, event) ==> Spoilable(w, s, n, event)
  {
    var rest := s.(jobs := RemoveAt(s.jobs, j));
    s' := Apply(w, s, Advance(j, 0));
    assert s.nodes[n := s.nodes[n].(records := s.nodes[n].records)] == s.nodes;
    TakeJobView(w, s, j, n, event);
    SpawnView(w, rest, n, Wanted(event), n, event);
    if Spoilable(w, s', n, event) {
      SpoilableBefore(w, s, Advance(j, 0), n, event);
    }
  }

  /** From the filter on: r lets the event pass, and f is recorded last. */
  lemma CheckedSpoils(w: World, s: System, n: Peer, event: FileEvent, f: Record, r: Option<Record>)
    requires Sized(w, s) && n < |s.nodes| && !Grants(w.strategies[n], f, event)
    requires var d := View(w, s, n, event);
             && d.checked && f in d.outstanding && PassesTest(w.strategies[n], r, event)
             && (r == d.record || Later(d.outstanding - multiset{f}, f, r))
    ensures Spoilable(w, s, n, event)
  {
    var d := View(w, s, n, event);
    if r == d.record {
      var passed := Passes(w, s, n, event);
      WantedSpoils(w, passed, n, event, f);
    } else {
      var recorded := Records(w, s, n, event, r.value);
      var passed := Passes(w, recorded, n, event);
      if r == Some(f) {
        PublishSpoils(w, passed, n, event, f);
      } else {
        WantedSpoils(w, passed, n, event, f);
      }
    }
  }

  /** The announcement arrives and passes the filter. */
  lemma Hears(w: World, s: System, n: Peer, event: FileEvent) returns (s': System)
    requires Sized(w, s) && n < |s.nodes| && Announced(s, n, event) && PassesFilter(View(w, s, n, event).record, event)
    ensures |s'.nodes| == |s.nodes| && Sized(w, s')
    ensures View(w, s', n, event) == View(w, s, n, event).(checked := true)
    ensures Spoilable(w, s', n, event) ==> Spoilable(w, s, n, event)
  {
    var packet :| packet in s.net && packet.to == n && packet.msg.kind.Event? && packet.msg.from != n
                  && EventOf(packet.msg) == event;
    var i :| 0 <= i < |s.net| && s.net[i] == packet;
    var rest := s.(net := RemoveAt(s.net, i));
    s' := Apply(w, s, Deliver(i, 0));
    SpawnView(w, rest, n, Checked(event), n, event);
    if Spoilable(w, s', n, event) {
      SpoilableBefore(w, s, Deliver(i, 0), n, event);
    }
  }

  // ---- The theorem -------------------------------------------------------

  /**
   An outstanding publication writes a record that does not grant the request, while the event
   gets past the filter over the present record, or over one recorded before; and past the
   conflict test and the strategy over the same, over a later one, or over that record itself.
   */
  ghost predicate Endangered(strategy: Strategy, event: FileEvent, record: Option<Record>,
          outstanding: multiset<Record>) {
    exists f :: f in outstanding && !Grants(strategy, f, event) &&
                Ahead(strategy, event, Desk(record, outstanding, false, false, false), outstanding - multiset{f}, f)
  }

  /** The announcement is on its way, and nothing at the node deals with this event yet. */
  ghost predicate Unheard(w: World, s: System, n: Peer, event: FileEvent) {
    && Sized(w, s) && n < |s.nodes| && ConflictsRecorded(s, n, event.path) && Announced(s, n, event)
    && (forall job :: job in s.jobs && job.owner == n && job.task.event == event ==> job.task.Recording?)
  }

  lemma HeardSpoils(w: World, s: System, n: Peer, event: FileEvent, f: Record, r: Option<Record>)
    requires Sized(w, s) && n < |s.nodes| && Announced(s, n, event) && !Grants(w.strategies[n], f, event)
    requires var d := View(w, s, n, event);
             && PassesFilter(d.record, event) && f in d.outstanding && PassesTest(w.strategies[n], r, event)
             && (r == d.record || Later(d.outstanding - multiset{f}, f, r))
    ensures Spoilable(w, s, n, event)
  {
    var heard := Hears(w, s, n, event);
    CheckedSpoils(w, heard, n, event, f, r);
  }

  lemma RecordedSpoils(w: World, s: System, n: Peer, event: FileEvent, f: Record, x: Record, r: Option<Record>)
    requires Sized(w, s) && n < |s.nodes| && Announced(s, n, event) && !Grants(w.strategies[n], f, event)
    requires var d := View(w, s, n, event);
             && f in d.outstanding && x in d.outstanding - multiset{f} && PassesFilter(Some(x), event)
             && Later(d.outstanding - multiset{f}, f, r) && PassesTest(w.strategies[n], r, event)
    ensures Spoilable(w, s, n, event)
  {
    var recorded := Records(w, s, n, event, x);
    HeardSpoils(w, recorded, n, event, f, r);
  }

  lemma EndangeredSpoils(w: World, s: System, n: Peer, event: FileEvent)
    requires Unheard(w, s, n, event)
    requires Endangered(w.strategies[n], event, RecordAt(s, n, event.path), Outstanding(w, s, n, event.path))
    ensures Spoilable(w, s, n, event)
  {
    var strategy, record, outstanding := w.strategies[n], RecordAt(s, n, event.path), Outstanding(w, s, n, event.path);
    var f :| f in outstanding && !Grants(strategy, f, event) &&
             Ahead(strategy, event, Desk(record, outstanding, false, false, false), outstanding - multiset{f}, f);
    if
      && PassesFilter(record, event)
      && exists r :: (r == record || Later(outstanding - multiset{f}, f, r)) && PassesTest(strategy, r, event)
    {
      var r :| (r == record || Later(outstanding - multiset{f}, f, r)) && PassesTest(strategy, r, event);
      HeardSpoils(w, s, n, event, f, r);
    } else {
      var x :| x in outstanding - multiset{f} && PassesFilter(Some(x), event);
      var r :| Later(outstanding - multiset{f}, f, r) && PassesTest(strategy, r, event);
      RecordedSpoils(w, s, n, event, f, x, r);
    }
  }

  lemma UnendangeredIsSafe(w: World, s: System, n: Peer, event: FileEvent)
    requires Unheard(w, s, n, event)
    requires !Endangered(w.strategies[n], event, RecordAt(s, n, event.path), Outstanding(w, s, n, event.path))
    ensures Guarded(w, s, n, event)
  {
    var d := View(w, s, n, event);
    assert d == Desk(d.record, d.outstanding, false, false, false);
  }

  lemma UnendangeredIsNotSpoilable(w: World, s: System, n: Peer, event: FileEvent)
    requires Unheard(w, s, n, event)
    requires !Endangered(w.strategies[n], event, RecordAt(s, n, event.path), Outstanding(w, s, n, event.path))
    ensures !Spoilable(w, s, n, event)
  {
    UnendangeredIsSafe(w, s, n, event);
    forall run | Isolated(w, s, run, n, event.path)
      ensures AllRightful(w, s, run, n, event)
    {
      SafeRunsAreRightful(w, s, run, n, event);
    }
  }

  /** The node's request can go out over a record that does not grant it, exactly if the event is endangered. */
  lemma RequestsAreSoundExactly(w: World, s: System, n: Peer, event: FileEvent)
    requires Unheard(w, s, n, event)
    ensures Spoilable(w, s, n, event) <==>
            Endangered(w.strategies[n], event, RecordAt(s, n, event.path), Outstanding(w, s, n, event.path))
  {
    if Endangered(w.strategies[n], event, RecordAt(s, n, event.path), Outstanding(w, s, n, event.path)) {
      EndangeredSpoils(w, s, n, event);
    } else {
      UnendangeredIsNotSpoilable(w, s, n, event);
    }
  }

  // ---- Consequences ------------------------------------------------------

  /** When every outstanding publication grants the request, all is well, whatever the present record says. */
  lemma GrantedPublicationsAreSound(w: World, s: System, run: seq<Step>, n: Peer, event: FileEvent)
    requires Unheard(w, s, n, event) && Isolated(w, s, run, n, event.path)
    requires forall f :: f in Outstanding(w, s, n, event.path) ==> Grants(w.strategies[n], f, event)
    ensures AllRightful(w, s, run, n, event)
  {
    UnendangeredIsSafe(w, s, n, event);
    SafeRunsAreRightful(w, s, run, n, event);
  }

  /** Without a record that is the exact condition. */
  lemma RecordlessRequestsAreSoundExactly(w: World, s: System, n: Peer, event: FileEvent)
    requires Unheard(w, s, n, event) && IsFileInWatchedPaths(event.path) && event.path !in s.nodes[n].records
    ensures !Spoilable(w, s, n, event) <==>
            forall f :: f in Outstanding(w, s, n, event.path) ==> Grants(w.strategies[n], f, event)
  {
    var strategy, outstanding := w.strategies[n], Outstanding(w, s, n, event.path);
    RequestsAreSoundExactly(w, s, n, event);
    if f :| f in outstanding && !Grants(strategy, f, event) {
      assert PassesFilter(None, event) && PassesTest(strategy, None, event);
      assert Ahead(strategy, event, Desk(None, outstanding, false, false, false), outstanding - multiset{f}, f);
    }
  }

  /**
   In manual mode, between definite versions: over a record with a checksum the node's request goes out
   in some run exactly if one of its own outstanding publications is of the very version announced, and
   another version passes the filter.
   */
  lemma ManualRequestsExactly(w: World, s: System, n: Peer, event: FileEvent)
    requires Unheard(w, s, n, event) && w.strategies[n].Manually? && IsFileInWatchedPaths(event.path)
    requires event.checksum != "" && event.path in s.nodes[n].records && s.nodes[n].records[event.path].checksum != ""
    requires forall f :: f in Outstanding(w, s, n, event.path) ==> f.checksum != ""
    ensures var outstanding := Outstanding(w, s, n, event.path);
            Spoilable(w, s, n, event) <==>
            && (exists f :: f in outstanding && f.checksum == event.checksum)
            && (s.nodes[n].records[event.path].checksum != event.checksum
                || exists x :: x in outstanding && x.checksum != event.checksum)
  {
    var record, outstanding := RecordAt(s, n, event.path), Outstanding(w, s, n, event.path);
    RequestsAreSoundExactly(w, s, n, event);
    ManualEndangered(event, record.value, outstanding);
  }

  lemma ManualEndangered(event: FileEvent, record: Record, outstanding: multiset<Record>)
    requires event.checksum != "" && record.checksum != "" && IsFileInWatchedPaths(event.path)
    requires forall f :: f in outstanding ==> f.checksum != ""
    ensures Endangered(Manually, event, Some(record), outstanding) <==>
            && (exists f :: f in outstanding && f.checksum == event.checksum)
            && (record.checksum != event.checksum || exists x :: x in outstanding && x.checksum != event.checksum)
  {
    var d := Desk(Some(record), outstanding, false, false, false);
    if f :| f in outstanding && f.checksum == event.checksum {
      var others := outstanding - multiset{f};
      assert Later(others, f, Some(f)) && PassesTest(Manually, Some(f), event);
      assert record.checksum != event.checksum ==> Ahead(Manually, event, d, others, f);
      if x :| x in outstanding && x.checksum != event.checksum {
        assert x in others && PassesFilter(Some(x), event);
        assert Ahead(Manually, event, d, others, f);
      }
    }
  }

  /** A manual-mode node that has just written the path, and an announcement of another version. */
  ghost function JustWritten(path: Path, content: Content, checksum: string, size: int): System {
    System([Node(map[path := File(content, 0)], map[], {Watch(path, false)}), Node(map[], map[], {})],
           [Packet(0, Message(Event, path, [], checksum, size, 0, 1))], [])
  }

  /** Its request can go out over its own record, although both versions carry checksums. */
  lemma ManualRequestOverOwnRecord(w: World, path: Path, content: Content, checksum: string, size: int)
    requires w.strategies == [Manually, Manually] && IsFileInWatchedPaths(path)
    requires w.hash(content) != "" && checksum != ""
    ensures Sized(w, JustWritten(path, content, checksum, size))
    ensures Spoilable(w, JustWritten(path, content, checksum, size), 0, FileEvent(path, 0, size, checksum, ZERO_TIME))
  {
    var s, event := JustWritten(path, content, checksum, size), FileEvent(path, 0, size, checksum, ZERO_TIME);
    assert s.net[0] in s.net && Unheard(w, s, 0, event);
    var f := Seen(w, s.nodes[0], path, false);
    assert f in Outstanding(w, s, 0, path) && !Grants(Manually, f, event);
    RecordlessRequestsAreSoundExactly(w, s, 0, event);
  }

  // ---- All runs ----------------------------------------------------------

  ghost predicate Handles(s: System, n: Peer, event: FileEvent) {
    exists job :: job in s.jobs && job.owner == n && job.task.event == event && !job.task.Recording?
  }

  /** What one step adds to the handlers of the event was let through by the record at that moment. */
  lemma StepVets(w: World, s: System, step: Step, n: Peer, event: FileEvent)
    requires Sized(w, s) && Enabled(s, step) && n < |s.nodes|
    ensures Handles(Apply(w, s, step), n, event) && !Handles(s, n, event) ==>
        PassesFilter(RecordAt(s, n, event.path), event)
    ensures Job(n, Wanted(event)) in Apply(w, s, step).jobs && Job(n, Wanted(event)) !in s.jobs ==>
              Handles(s, n, event) && PassesTest(w.strategies[n], RecordAt(s, n, event.path), event)
  {
    match step
    case Advance(j, _) => assert s.jobs[j] in s.jobs;
    case _ =>
  }

  /**
   At some moment of the run the record lets the event pass the test or convinces the strategy, and at
   that moment or before, perhaps before the run (`heard`), the record lets it pass the filter.
   */
  ghost predicate Vetted(w: World, s: System, run: seq<Step>, n: Peer, event: FileEvent, heard: bool)
    requires Sized(w, s) && Possible(w, s, run) && n < |w.strategies|
    decreases |run|
  {
    var record := RecordAt(s, n, event.path);
    var filtered := heard || PassesFilter(record, event);
    || (filtered && PassesTest(w.strategies[n], record, event))
    || (run != [] && Vetted(w, Apply(w, s, run[0]), run[1..], n, event, filtered))
  }

  /**
   In every run, whatever else happens: a request is about to go out only if the filter, and then the
   test or the strategy, let the event through, each over the record of its moment.
   */
  lemma {:induction false} RequestsAreVetted(w: World, s: System, run: seq<Step>, n: Peer, event: FileEvent,
          heard: bool)
    requires Sized(w, s) && Possible(w, s, run) && n < |w.strategies|
    requires (Handles(s, n, event) ==> heard) && Job(n, Wanted(event)) !in s.jobs
    requires Job(n, Wanted(event)) in After(w, s, run).jobs
    ensures Vetted(w, s, run, n, event, heard)
    decreases |run|
  {
    StepVets(w, s, run[0], n, event);
    if Job(n, Wanted(event)) !in Apply(w, s, run[0]).jobs {
      RequestsAreVetted(w, Apply(w, s, run[0]), run[1..], n, event, heard
          || PassesFilter(RecordAt(s, n, event.path), event));
    }
  }
}
