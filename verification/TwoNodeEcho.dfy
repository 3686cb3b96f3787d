/**
 When the exchange of two nodes need not end. A node that holds the larger version without a
 record of it takes the echo of its own announcement for news; while records are held back,
 the two fetch the same version from each other as often as one likes.
 */
module TwoNodeEcho {
  import opened Prelude
  import opened GoTime
  import opened FileSync
  import opened Gossip
  import opened Work
  import opened TwoNode
  import opened TwoNodeRaces

  // ---- Counting work along runs -------------------------------------------

  lemma {:induction false} EffortOfBoth(w: World, path: Path, s: System, run: seq<Step>, mid: System, more: seq<Step>)
    requires Goes(w, s, run, mid) && Sized(w, mid) && Possible(w, mid, more) && Possible(w, s, run + more)
    ensures Effort(w, path, s, run + more) == Effort(w, path, s, run) + Effort(w, path, mid, more)
    decreases |run|
  {
    if run == [] {
      assert run + more == more;
    } else {
      FirstOfBoth(run, more);
      EffortOfBoth(w, path, Apply(w, s, run[0]), run[1..], mid, more);
    }
  }

  /** One run after the other, with at least as much work as both. */
  lemma Onward(w: World, d: Duel, s: System, run: seq<Step>, mid: System, more: seq<Step>, end: System)
    requires Leads(w, d, s, run, mid) && Leads(w, d, mid, more, end)
    ensures Leads(w, d, s, run + more, end)
    ensures Effort(w, d.path, s, run + more) == Effort(w, d.path, s, run) + Effort(w, d.path, mid, more)
  {
    Then(w, d, s, run, mid, more, end);
    EffortOfBoth(w, d.path, s, run, mid, more);
  }

  // ---- One round ---------------------------------------------------------

  /** The large version is announced to `lo`, whose record ranks below it; `hi` has no record. */
  ghost predicate Echoes(w: World, d: Duel, s: System, i: nat) {
    && Sized(w, s) && Fair(w, d) && |s.nodes| == 2
    && OnDisk(d.path, d.large, s.nodes[d.Hi()]) && d.path !in s.nodes[d.Hi()].records
    && (d.path in s.nodes[d.lo].records ==> Recorded(w, d.path, d.small, s.nodes[d.lo]))
    && Announces(d, s, i, d.lo) && Names(w, d.large, s.net[i].msg.checksum, s.net[i].msg.size)
  }

  /** Firing a watcher announces what the node holds; its record is left for later. */
  lemma Fires(w: World, d: Duel, s: System, n: Peer, content: Content, now: Time) returns (end: System)
    requires Sized(w, s) && |s.nodes| == 2 && n < 2 && Watch(d.path, false) in s.nodes[n].pending
    requires OnDisk(d.path, content, s.nodes[n])
    ensures var step := Fire(n, Watch(d.path, false), now);
            Leads(w, d, s, [step], end) && Effort(w, d.path, s, [step]) == 1
    ensures |end.nodes| == 2 && end.nodes[Opposite(n)] == s.nodes[Opposite(n)]
    ensures end.nodes[n] == s.nodes[n].(pending := s.nodes[n].pending - {Watch(d.path, false)})
    ensures Announces(d, end, |s.net|, Opposite(n))
        && Names(w, content, end.net[|s.net|].msg.checksum, end.net[|s.net|].msg.size)
  {
    var step := Fire(n, Watch(d.path, false), now);
    end := Apply(w, s, step);
    ToTheOther(EventMessage(n, Observe(w.hash, s.nodes[n].disk, d.path, false, now), now));
    OneStep(w, d, s, step);
    assert [step][1..] == [] && Effort(w, d.path, end, []) == 0;
  }

  /** The node fetches the large version from the other and announces it in turn. */
  lemma HalfRound(w: World, d: Duel, s: System, i: nat, n: Peer, now: Time)
    returns (run: seq<Step>, end: System, k: nat)
    requires Sized(w, s) && Fair(w, d) && |s.nodes| == 2 && n < 2 && Announces(d, s, i, n)
    requires HandleFileEvent(BySize, s.nodes[n].records, EventOf(s.net[i].msg), now).1
    requires OnDisk(d.path, d.large, s.nodes[Opposite(n)])
    ensures Leads(w, d, s, run, end) && Effort(w, d.path, s, run) >= 1
    ensures |end.nodes| == 2 && end.nodes[Opposite(n)] == s.nodes[Opposite(n)]
    ensures OnDisk(d.path, d.large, end.nodes[n]) && end.nodes[n].records == s.nodes[n].records
    ensures Announces(d, end, k, Opposite(n)) && Names(w, d.large, end.net[k].msg.checksum, end.net[k].msg.size)
  {
    var fetch := Fetches(w, d, s, i, n, now);
    var woken := System(s.nodes[n := Write(s.nodes[n], d.path, d.large, now)], RemoveAt(s.net, i), s.jobs);
    end := Fires(w, d, woken, n, d.large, now);
    k := |woken.net|;
    Onward(w, d, s, fetch, woken, [Fire(n, Watch(d.path, false), now)], end);
    run := fetch + [Fire(n, Watch(d.path, false), now)];
  }

  lemma LoIsInterested(w: World, d: Duel, s: System, i: nat, now: Time)
    requires Echoes(w, d, s, i)
    ensures HandleFileEvent(BySize, s.nodes[d.lo].records, EventOf(s.net[i].msg), now).1
  {
  }

  lemma Round(w: World, d: Duel, s: System, i: nat, now: Time) returns (run: seq<Step>, end: System, k: nat)
    requires Echoes(w, d, s, i)
    ensures Leads(w, d, s, run, end) && Effort(w, d.path, s, run) >= 1 && Echoes(w, d, end, k)
  {
    LoIsInterested(w, d, s, i, now);
    var first, mid, j := HalfRound(w, d, s, i, d.lo, now);
    var second;
    second, end, k := HalfRound(w, d, mid, j, d.Hi(), now);
    Onward(w, d, s, first, mid, second, end);
    run := first + second;
  }

  /** As many rounds as one likes. */
  lemma {:induction false} Rounds(w: World, d: Duel, s: System, i: nat, bound: nat, now: Time) returns (run: seq<Step>)
    requires Echoes(w, d, s, i)
    ensures Undisturbed(w, d, s, run) && Effort(w, d.path, s, run) >= bound
    decreases bound
  {
    if bound == 0 {
      run := [];
    } else {
      var first, mid, k := Round(w, d, s, i, now);
      var rest := Rounds(w, d, mid, k, bound - 1, now);
      Onward(w, d, s, first, mid, rest, After(w, mid, rest));
      run := first + rest;
    }
  }

  // ---- The theorem -------------------------------------------------------

  /** Without a record at `hi`, no number bounds the work of all runs. */
  lemma RecordlessRunsAreUnbounded(w: World, d: Duel, s: System, bound: nat, now: Time) returns (run: seq<Step>)
    requires Sized(w, s) && Facing(w, d, s) && d.path !in s.nodes[d.Hi()].records
    ensures Undisturbed(w, d, s, run) && Effort(w, d.path, s, run) >= bound
  {
    if packet :| packet in s.net && packet.msg.path == d.path && packet.to == d.lo {
      var i :| 0 <= i < |s.net| && s.net[i] == packet;
      run := Rounds(w, d, s, i, bound, now);
    } else {
      var step := Fire(d.Hi(), Watch(d.path, false), now);
      var fired := Fires(w, d, s, d.Hi(), d.large, now);
      run := Rounds(w, d, fired, |s.net|, bound, now);
      Onward(w, d, s, [step], fired, run, After(w, fired, run));
      run := [step] + run;
    }
  }

  ghost predicate Bounded(w: World, d: Duel, s: System, bound: nat) {
    forall run :: Undisturbed(w, d, s, run) ==> Effort(w, d.path, s, run) <= bound
  }

  /** One bound holds for the work of all runs, exactly if `hi` has a record. */
  lemma ExchangeIsBoundedExactly(w: World, d: Duel, s: System)
    requires Sized(w, s) && Facing(w, d, s)
    ensures (exists bound: nat :: Bounded(w, d, s, bound)) <==> d.path in s.nodes[d.Hi()].records
  {
    if d.path in s.nodes[d.Hi()].records {
      StartCatchesUp(w, d, s);
      forall run | Undisturbed(w, d, s, run)
        ensures Effort(w, d.path, s, run) <= Budget(w, d, s)
      {
        ExchangeIsBounded(w, d, s, run);
      }
      assert Bounded(w, d, s, Budget(w, d, s));
    } else {
      forall bound: nat
        ensures !Bounded(w, d, s, bound)
      {
        var run := RecordlessRunsAreUnbounded(w, d, s, bound + 1, 0);
      }
    }
  }
}
