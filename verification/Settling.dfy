/**
 Agreement is never out of reach: from every state of the propagation of one version
 some run leads to a quiet one, and once all nodes hold and have recorded the file,
 every run gets there within a number of steps fixed by the work left.
 */
module Settling {
  import opened GoTime
  import opened FileSync
  import opened Gossip
  import opened Work
  import opened Propagation

  predicate Holds(path: Path, node: Node) {
    path in node.disk && path in node.records
  }

  /** The run may happen, leaves the path to the protocol, ends with node n holding the file, and no node loses it. */
  ghost predicate Finishes(w: World, v: Version, s: System, run: seq<Step>, n: Peer) {
    && Sized(w, s) && Possible(w, s, run) && n < |s.nodes|
    && (forall step :: step in run ==> HandsOff(v.path, step))
    && Holds(v.path, After(w, s, run).nodes[n])
    && NothingLost(v.path, s, After(w, s, run))
  }

  ghost predicate NothingLost(path: Path, s: System, s': System) {
    |s.nodes| == |s'.nodes| && forall n :: 0 <= n < |s.nodes| && Holds(path, s.nodes[n]) ==> Holds(path, s'.nodes[n])
  }

  lemma StepLosesNothing(w: World, path: Path, s: System, step: Step)
    requires Sized(w, s) && Enabled(s, step) && HandsOff(path, step)
    ensures NothingLost(path, s, Apply(w, s, step))
  {
  }

  lemma Prepend(w: World, v: Version, s: System, step: Step, rest: seq<Step>, n: Peer)
    requires Sized(w, s) && Enabled(s, step) && HandsOff(v.path, step)
    requires Finishes(w, v, Apply(w, s, step), rest, n)
    ensures Finishes(w, v, s, [step] + rest, n)
  {
    Cons(w, s, step, rest);
    StepLosesNothing(w, v.path, s, step);
  }

  // ---- The way to a node, one link at a time -----------------------------

  lemma FromRecording(w: World, v: Version, s: System, n: Peer, now: Time) returns (run: seq<Step>)
    requires Spreading(w, v, s) && n < |s.nodes| && v.path in s.nodes[n].disk && AboutToRecord(s, n, v.path)
    ensures Finishes(w, v, s, run, n)
  {
    var job :| job in s.jobs && job.owner == n && job.task.event.path == v.path && job.task.Recording?;
    var j :| 0 <= j < |s.jobs| && s.jobs[j] == job;
    Prepend(w, v, s, Advance(j, now), [], n);
    run := [Advance(j, now)] + [];
  }

  lemma FromDisk(w: World, v: Version, s: System, n: Peer, now: Time) returns (run: seq<Step>)
    requires Spreading(w, v, s) && n < |s.nodes| && v.path in s.nodes[n].disk
    ensures Finishes(w, v, s, run, n)
  {
    assert Reported(v, s, n);
    if v.path in s.nodes[n].records {
      run := [];
    } else if AboutToRecord(s, n, v.path) {
      run := FromRecording(w, v, s, n, now);
    } else {
      var step := Fire(n, Watch(v.path, false), now);
      var s' := Apply(w, s, step);
      FireSpreads(w, v, s, n, Watch(v.path, false), now);
      var event := Observe(w.hash, s.nodes[n].disk, v.path, false, now);
      assert Job(n, Recording(event)) in s'.jobs;
      run := FromRecording(w, v, s', n, now);
      Prepend(w, v, s, step, run, n);
      run := [step] + run;
    }
  }

  lemma FromResponse(w: World, v: Version, s: System, n: Peer, now: Time) returns (run: seq<Step>)
    requires Spreading(w, v, s) && IsFileInWatchedPaths(v.path) && n < |s.nodes| && InFlight(s, n, Response, v.path)
    ensures Finishes(w, v, s, run, n)
  {
    var packet :| packet in s.net && Fits(packet, n, Response, v.path);
    var i :| 0 <= i < |s.net| && s.net[i] == packet;
    assert CarriesVersion(w, v, |s.nodes|, packet);
    ReceiveSpreads(w, v, s, i, now);
    run := FromDisk(w, v, Apply(w, s, Deliver(i, now)), n, now);
    Prepend(w, v, s, Deliver(i, now), run, n);
    run := [Deliver(i, now)] + run;
  }

  lemma FromRequest(w: World, v: Version, s: System, n: Peer, now: Time) returns (run: seq<Step>)
    requires Spreading(w, v, s) && IsFileInWatchedPaths(v.path) && n < |s.nodes| && Asked(s, v, n)
    ensures Finishes(w, v, s, run, n)
  {
    var packet :| packet in s.net && Fits(packet, v.origin, Request, v.path) && packet.msg.from == n;
    var i :| 0 <= i < |s.net| && s.net[i] == packet;
    assert CarriesVersion(w, v, |s.nodes|, packet);
    var s' := Apply(w, s, Deliver(i, now));
    var response := ResponseMessage(v.origin, v.path, s.nodes[v.origin].disk[v.path].content, now);
    assert Packet(n, response) in s'.net && Fits(Packet(n, response), n, Response, v.path);
    ReceiveSpreads(w, v, s, i, now);
    run := FromResponse(w, v, s', n, now);
    Prepend(w, v, s, Deliver(i, now), run, n);
    run := [Deliver(i, now)] + run;
  }

  lemma FromFetching(w: World, v: Version, s: System, n: Peer, now: Time) returns (run: seq<Step>)
    requires Spreading(w, v, s) && IsFileInWatchedPaths(v.path)
    requires n < |s.nodes| && v.path !in s.nodes[n].disk && Fetching(s, n, v.path)
    ensures Finishes(w, v, s, run, n)
  {
    if job :| job in s.jobs && job.owner == n && job.task.event.path == v.path && job.task.Wanted? {
      var j :| 0 <= j < |s.jobs| && s.jobs[j] == job;
      run := FromWanted(w, v, s, n, j, now);
    } else {
      var job :| job in s.jobs && job.owner == n && job.task.event.path == v.path && (job.task.Checked?
          || job.task.Wanted?);
      var j :| 0 <= j < |s.jobs| && s.jobs[j] == job;
      var s' := Apply(w, s, Advance(j, now));
      AdvanceSpreads(w, v, s, j, now);
      assert s'.jobs[|s'.jobs| - 1] == Job(n, Wanted(job.task.event));
      run := FromWanted(w, v, s', n, |s'.jobs| - 1, now);
      Prepend(w, v, s, Advance(j, now), run, n);
      run := [Advance(j, now)] + run;
    }
  }

  lemma FromWanted(w: World, v: Version, s: System, n: Peer, j: nat, now: Time) returns (run: seq<Step>)
    requires Spreading(w, v, s) && IsFileInWatchedPaths(v.path) && n < |s.nodes| && v.path !in s.nodes[n].disk
    requires j < |s.jobs| && s.jobs[j].owner == n && s.jobs[j].task.Wanted? && s.jobs[j].task.event.path == v.path
    ensures Finishes(w, v, s, run, n)
  {
    var request := RequestMessage(n, v.path, now);
    var s' := Apply(w, s, Advance(j, now));
    assert Packet(v.origin, request) in s'.net && Fits(Packet(v.origin, request), v.origin, Request, v.path);
    AdvanceSpreads(w, v, s, j, now);
    run := FromRequest(w, v, s', n, now);
    Prepend(w, v, s, Advance(j, now), run, n);
    run := [Advance(j, now)] + run;
  }

  lemma FromEvent(w: World, v: Version, s: System, n: Peer, now: Time) returns (run: seq<Step>)
    requires Spreading(w, v, s) && IsFileInWatchedPaths(v.path)
    requires n < |s.nodes| && v.path !in s.nodes[n].disk && InFlight(s, n, Event, v.path)
    ensures Finishes(w, v, s, run, n)
  {
    var packet :| packet in s.net && Fits(packet, n, Event, v.path);
    var i :| 0 <= i < |s.net| && s.net[i] == packet;
    assert CarriesVersion(w, v, |s.nodes|, packet);
    var s' := Apply(w, s, Deliver(i, now));
    assert Job(n, Checked(EventOf(packet.msg))) in s'.jobs;
    ReceiveSpreads(w, v, s, i, now);
    run := FromFetching(w, v, s', n, now);
    Prepend(w, v, s, Deliver(i, now), run, n);
    run := [Deliver(i, now)] + run;
  }

  lemma FromOrigin(w: World, v: Version, s: System, n: Peer, now: Time) returns (run: seq<Step>)
    requires Spreading(w, v, s) && IsFileInWatchedPaths(v.path)
    requires n < |s.nodes| && v.path !in s.nodes[n].disk && Watch(v.path, false) in s.nodes[v.origin].pending
    ensures Finishes(w, v, s, run, n)
  {
    var step := Fire(v.origin, Watch(v.path, false), now);
    var s' := Apply(w, s, step);
    var msg := EventMessage(v.origin, Observe(w.hash, s.nodes[v.origin].disk, v.path, false, now), now);
    assert Packet(n, msg) in s'.net && Fits(Packet(n, msg), n, Event, v.path);
    FireSpreads(w, v, s, v.origin, Watch(v.path, false), now);
    run := FromEvent(w, v, s', n, now);
    Prepend(w, v, s, step, run, n);
    run := [step] + run;
  }

  lemma Finish(w: World, v: Version, s: System, n: Peer, now: Time) returns (run: seq<Step>)
    requires Spreading(w, v, s) && IsFileInWatchedPaths(v.path) && n < |s.nodes|
    ensures Finishes(w, v, s, run, n)
  {
    assert Served(v, s, n);
    if v.path in s.nodes[n].disk {
      run := FromDisk(w, v, s, n, now);
    } else if InFlight(s, n, Response, v.path) {
      run := FromResponse(w, v, s, n, now);
    } else if Asked(s, v, n) {
      run := FromRequest(w, v, s, n, now);
    } else if Fetching(s, n, v.path) {
      run := FromFetching(w, v, s, n, now);
    } else if InFlight(s, n, Event, v.path) {
      run := FromEvent(w, v, s, n, now);
    } else {
      run := FromOrigin(w, v, s, n, now);
    }
  }

  // ---- All nodes, then silence -------------------------------------------

  ghost predicate AllHold(path: Path, s: System) {
    forall n :: 0 <= n < |s.nodes| ==> Holds(path, s.nodes[n])
  }

  lemma HandsOffSpreads(w: World, v: Version, s: System, run: seq<Step>)
    requires Spreading(w, v, s) && IsFileInWatchedPaths(v.path)
    requires Possible(w, s, run) && forall step :: step in run ==> HandsOff(v.path, step)
    ensures Spreading(w, v, After(w, s, run))
  {
    forall step | step in run
      ensures LeavesAlone(v.path, step)
    {
    }
    RunSpreads(w, v, s, run);
  }

  /** The first k nodes are served one after the other. */
  lemma {:induction false} FinishFirst(w: World, v: Version, s: System, k: nat, now: Time) returns (run: seq<Step>)
    requires Spreading(w, v, s) && IsFileInWatchedPaths(v.path) && k <= |s.nodes|
    ensures Possible(w, s, run) && forall step :: step in run ==> HandsOff(v.path, step)
    ensures forall n :: 0 <= n < k ==> Holds(v.path, After(w, s, run).nodes[n])
  {
    if k == 0 {
      run := [];
    } else {
      var first := FinishFirst(w, v, s, k - 1, now);
      HandsOffSpreads(w, v, s, first);
      var last := Finish(w, v, After(w, s, first), k - 1, now);
      Concat(w, s, first, last);
      run := first + last;
    }
  }

  lemma HeldStepLoad(w: World, v: Version, s: System, step: Step)
    requires Spreading(w, v, s) && IsFileInWatchedPaths(v.path) && AllHold(v.path, s)
    requires Enabled(s, step) && HandsOff(v.path, step)
    ensures var s' := Apply(w, s, step);
            && Spreading(w, v, s') && AllHold(v.path, s')
            && (if Touches(v.path, s, step) then Load({}, v.path, s') < Load({}, v.path, s)
                else Load({}, v.path, s') == Load({}, v.path, s))
  {
    assert ClosedFor(w, {}, v.path, s, step) by {
      if step.Deliver? {
        assert CarriesVersion(w, v, |s.nodes|, s.net[step.index]);
      }
    }
    StepLoad(w, {}, v.path, s, step);
    StepSpreads(w, v, s, step);
    StepLosesNothing(w, v.path, s, step);
  }

  /** Once every node holds the file, each run handles the path at most Load times, whatever its schedule. */
  lemma {:induction false} HeldRunsAreBounded(w: World, v: Version, s: System, run: seq<Step>)
    requires Spreading(w, v, s) && IsFileInWatchedPaths(v.path) && AllHold(v.path, s)
    requires Possible(w, s, run) && forall step :: step in run ==> HandsOff(v.path, step)
    ensures Effort(w, v.path, s, run) + Load({}, v.path, After(w, s, run)) <= Load({}, v.path, s)
    decreases |run|
  {
    if run != [] {
      HeldStepLoad(w, v, s, run[0]);
      HeldRunsAreBounded(w, v, Apply(w, s, run[0]), run[1..]);
    }
  }

  lemma {:induction false} Drain(w: World, v: Version, s: System, now: Time) returns (run: seq<Step>)
    requires Spreading(w, v, s) && IsFileInWatchedPaths(v.path) && AllHold(v.path, s)
    ensures Possible(w, s, run) && forall step :: step in run ==> HandsOff(v.path, step)
    ensures Quiet(v.path, After(w, s, run))
    decreases Load({}, v.path, s)
  {
    if Quiet(v.path, s) {
      run := [];
    } else {
      assert Addressed(v.path, s) by {
        forall packet | packet in s.net
          ensures packet.msg.path == v.path ==> packet.to < |s.nodes|
        {
          assert CarriesVersion(w, v, |s.nodes|, packet);
        }
        forall job | job in s.jobs
          ensures job.task.event.path == v.path ==> job.owner < |s.nodes|
        {
          assert WorksOnVersion(w, v, s.nodes, job);
        }
      }
      var step := NotQuietMoves(v.path, s, now);
      HeldStepLoad(w, v, s, step);
      var rest := Drain(w, v, Apply(w, s, step), now);
      Cons(w, s, step, rest);
      run := [step] + rest;
    }
  }

  /** Whatever has happened since the file was introduced, some continuation ends quiet and agreed. */
  lemma AgreementStaysReachable(w: World, v: Version, s: System, run: seq<Step>, now: Time) returns (more: seq<Step>)
    requires Sized(w, s) && Introduced(v, s) && IsFileInWatchedPaths(v.path)
    requires Possible(w, s, run) && forall step :: step in run ==> LeavesAlone(v.path, step)
    ensures Possible(w, After(w, s, run), more) && forall step :: step in more ==> HandsOff(v.path, step)
    ensures var end := After(w, After(w, s, run), more);
            Quiet(v.path, end) && Agreed(w, v, end)
  {
    assert Spreading(w, v, s);
    RunSpreads(w, v, s, run);
    var s1 := After(w, s, run);
    var all := FinishFirst(w, v, s1, |s1.nodes|, now);
    HandsOffSpreads(w, v, s1, all);
    var drain := Drain(w, v, After(w, s1, all), now);
    Concat(w, s1, all, drain);
    more := all + drain;
    HandsOffSpreads(w, v, s1, more);
    QuietSpreadingAgrees(w, v, After(w, s1, more));
  }
}
