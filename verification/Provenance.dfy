/**
 Where file contents come from: over all runs, with any number of nodes and versions,
 nothing is ever written or sent that no user wrote to that same path.
 */
module Provenance {
  import opened GoTime
  import opened FileSync
  import opened Gossip

  /** A user-written version: a path and the content written to it. */
  type Versions = set<(Path, Content)>

  function WrittenBy(step: Step): Versions {
    match step
    case Edit(_, path, content, _) => {(path, content)}
    case _ => {}
  }

  function Written(run: seq<Step>): (versions: Versions)
    ensures forall v :: v in versions <==>
                        exists i :: 0 <= i < |run| && run[i].Edit? && v == (run[i].path, run[i].content)
  {
    if run == [] then {}
    else
      var rest := Written(run[1..]);
      assert forall i :: 0 < i < |run| ==> run[i] == run[1..][i - 1];
      assert forall i :: 0 <= i < |run| - 1 ==> run[1..][i] == run[i + 1];
      WrittenBy(run[0]) + rest
  }

  /** Checksum and size describe a written version of the path, or the absence of one. */
  ghost predicate Describes(hash: Hash, written: Versions, path: Path, checksum: string, size: int) {
    (checksum == "" && size == 0) ||
    (exists c :: (path, c) in written && checksum == hash(c) && size == |c|)
  }

  ghost predicate SourcedNode(hash: Hash, written: Versions, node: Node) {
    && (forall p :: p in node.disk ==> (p, node.disk[p].content) in written)
    && (forall p :: p in node.records ==>
          Describes(hash, written, p, node.records[p].checksum, node.records[p].size))
  }

  ghost predicate SourcedMessage(hash: Hash, written: Versions, msg: Message) {
    && (msg.kind.Event? ==> Describes(hash, written, msg.path, msg.checksum, msg.size))
    && (msg.kind.Response? ==> (msg.path, msg.data) in written && msg.size == |msg.data|)
  }

  ghost predicate SourcedTask(hash: Hash, written: Versions, task: Task) {
    Describes(hash, written, task.event.path, task.event.checksum, task.event.size)
  }

  /** Everything on a disk, in a record, on the network or inside a goroutine stems from `written`. */
  ghost predicate Sourced(hash: Hash, written: Versions, s: System) {
    && (forall n :: 0 <= n < |s.nodes| ==> SourcedNode(hash, written, s.nodes[n]))
    && (forall packet :: packet in s.net ==> SourcedMessage(hash, written, packet.msg))
    && (forall job :: job in s.jobs ==> SourcedTask(hash, written, job.task))
  }

  lemma ObservedIsSourced(hash: Hash, written: Versions, node: Node, path: Path, removed: bool, now: Time)
    requires SourcedNode(hash, written, node)
    ensures var event := Observe(hash, node.disk, path, removed, now);
            Describes(hash, written, path, event.checksum, event.size)
  {
  }

  lemma SourcedMonotone(hash: Hash, written: Versions, more: Versions, s: System)
    requires Sourced(hash, written, s) && written <= more
    ensures Sourced(hash, more, s)
  {
  }

  lemma AnnounceIsSourced(w: World, written: Versions, s: System, n: Peer, event: FileEvent, now: Time)
    requires Sourced(w.hash, written, s)
    requires Describes(w.hash, written, event.path, event.checksum, event.size)
    ensures Sourced(w.hash, written, Announce(s, n, event, now))
  {
  }

  lemma ReceivedIsSourced(w: World, written: Versions, s: System, i: nat, now: Time)
    requires Sized(w, s) && Enabled(s, Deliver(i, now)) && Sourced(w.hash, written, s)
    ensures Sourced(w.hash, written, Apply(w, s, Deliver(i, now)))
  {
    assert SourcedMessage(w.hash, written, s.net[i].msg);
  }

  lemma AdvancedIsSourced(w: World, written: Versions, s: System, j: nat, now: Time)
    requires Sized(w, s) && Enabled(s, Advance(j, now)) && Sourced(w.hash, written, s)
    ensures Sourced(w.hash, written, Apply(w, s, Advance(j, now)))
  {
    assert SourcedTask(w.hash, written, s.jobs[j].task);
  }

  lemma StepIsSourced(w: World, written: Versions, s: System, step: Step)
    requires Sized(w, s) && Enabled(s, step) && Sourced(w.hash, written, s)
    ensures Sourced(w.hash, written + WrittenBy(step), Apply(w, s, step))
  {
    var more := written + WrittenBy(step);
    SourcedMonotone(w.hash, written, more, s);
    match step
    case Fire(n, watch, now) =>
      ObservedIsSourced(w.hash, more, s.nodes[n], watch.path, watch.removed, now);
      var drained := s.(nodes := s.nodes[n := s.nodes[n].(pending := s.nodes[n].pending - {watch})]);
      AnnounceIsSourced(w, more, drained, n, Observe(w.hash, s.nodes[n].disk, watch.path, watch.removed, now), now);
    case SyncFile(n, p, now) =>
      ObservedIsSourced(w.hash, more, s.nodes[n], p, false, now);
      AnnounceIsSourced(w, more, s, n, Observe(w.hash, s.nodes[n].disk, p, false, now), now);
    case Deliver(i, now) => ReceivedIsSourced(w, more, s, i, now);
    case Advance(j, now) => AdvancedIsSourced(w, more, s, j, now);
    case _ =>
  }

  /** Content provenance over whole runs. */
  lemma {:induction false} ContentsAreWritten(w: World, written: Versions, s: System, run: seq<Step>)
    requires Sized(w, s) && Possible(w, s, run) && Sourced(w.hash, written, s)
    ensures Sourced(w.hash, written + Written(run), After(w, s, run))
    decreases |run|
  {
    if run == [] {
      assert written + Written(run) == written;
    } else {
      StepIsSourced(w, written, s, run[0]);
      ContentsAreWritten(w, written + WrittenBy(run[0]), Apply(w, s, run[0]), run[1..]);
      assert written + Written(run) == (written + WrittenBy(run[0])) + Written(run[1..]);
    }
  }

  /** The disks of freshly started nodes; they hold files, but no records and no traffic. */
  ghost predicate Fresh(s: System) {
    && s.net == [] && s.jobs == []
    && (forall n :: 0 <= n < |s.nodes| ==> s.nodes[n].records == map[])
  }

  function Stored(s: System): (versions: Versions)
    ensures forall v :: v in versions <==>
                        exists m :: 0 <= m < |s.nodes| && v.0 in s.nodes[m].disk && v.1 == s.nodes[m].disk[v.0].content
  {
    set m, p | 0 <= m < |s.nodes| && p in s.nodes[m].disk :: (p, s.nodes[m].disk[p].content)
  }

  lemma FreshIsSourced(hash: Hash, s: System)
    requires Fresh(s)
    ensures Sourced(hash, Stored(s), s)
  {
  }

  /** From a fresh start, each content found at a path was there at the start or edited there. */
  lemma NoContentFromNowhere(w: World, s: System, run: seq<Step>, n: nat, path: Path)
    requires Sized(w, s) && Fresh(s) && Possible(w, s, run)
    requires n < |s.nodes| && path in After(w, s, run).nodes[n].disk
    ensures var content := After(w, s, run).nodes[n].disk[path].content;
            || (exists m :: 0 <= m < |s.nodes| && path in s.nodes[m].disk && s.nodes[m].disk[path].content == content)
            || (exists i :: 0 <= i < |run| && run[i].Edit? && run[i].path == path && run[i].content == content)
  {
    FreshIsSourced(w.hash, s);
    ContentsAreWritten(w, Stored(s), s, run);
    assert SourcedNode(w.hash, Stored(s) + Written(run), After(w, s, run).nodes[n]);
  }
}
