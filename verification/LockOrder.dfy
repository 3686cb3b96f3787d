/**
 The manager's two read-write mutexes under any number of goroutines. Goroutines run the
 lock operations of the manager's methods, one at a time and in any interleaving; a
 writer that waits for readers keeps new readers out, as Go's RWMutex does.
 */
module LockOrder {
  datatype Mutex = Nodes | Leader

  datatype Mode = Shared | Exclusive

  /** A method call of a goroutine. The boolean tells which way the method's own branch goes. */
  datatype Call =
    | UpdateClusterMembership
    | UpdateNodesFromHeartbeat
    | SendHeartbeat(answers: seq<bool>)
    | SendHeartbeatToNode(answered: bool)
    | CheckNodeHealth
    | ShouldStartElection(leaderKnown: bool)
    | StartLeaderElection
    | BecomeLeader
    | SetLeader
    | IsLeader
    | GetLeaderID
    | GetActiveNodes
    | GetNodes
    | IsLeaderForFile(leading: bool)
    | AddNode
    | RemoveNode(asLeader: bool, known: bool)
    | UpdateNodeStatus
    | FindLeaderAddress

  datatype Op = Lock(mutex: Mutex, mode: Mode) | Unlock(mutex: Mutex) | Go(call: Call)

  function Section(mutex: Mutex, mode: Mode): seq<Op> {
    [Lock(mutex, mode), Unlock(mutex)]
  }

  /** One goroutine per peer; each heartbeat is answered or not. */
  function Spawns(answered: seq<bool>): seq<Op> {
    if answered == [] then [] else [Go(SendHeartbeatToNode(answered[0]))] + Spawns(answered[1..])
  }

  /** The lock operations and goroutine starts of each method, in program order. */
  function Trace(call: Call): seq<Op> {
    match call
    case UpdateClusterMembership => Section(Nodes, Exclusive)
    case UpdateNodesFromHeartbeat => [Lock(Nodes, Exclusive)] + Section(Leader, Exclusive) + [Unlock(Nodes)]
    case SendHeartbeat(answers) => Section(Nodes, Shared) + Spawns(answers) + Section(Nodes, Exclusive)
    case SendHeartbeatToNode(answered) => Section(Nodes, Shared) + if answered then Section(Nodes, Exclusive) else []
    case CheckNodeHealth => Section(Nodes, Exclusive)
    case ShouldStartElection(known) => Section(Leader, Shared) + if known then Section(Nodes, Shared) else []
    case StartLeaderElection => Section(Nodes, Shared) + Section(Leader, Exclusive) + Section(Nodes, Exclusive)
    case BecomeLeader => Section(Leader, Exclusive) + Section(Nodes, Exclusive)
    case SetLeader => Section(Leader, Exclusive) + Section(Nodes, Exclusive)
    case IsLeader => Section(Leader, Shared)
    case GetLeaderID => Section(Leader, Shared)
    case GetActiveNodes => Section(Nodes, Shared)
    case GetNodes => Section(Nodes, Shared)
    case IsLeaderForFile(leading) => Section(Leader, Shared) + if leading then Section(Nodes, Shared) else []
    case AddNode => Section(Nodes, Exclusive)
    case RemoveNode(asLeader, known) =>
      if !known then Section(Nodes, Exclusive)
      else [Lock(Nodes, Exclusive)] + Section(Leader,
          Shared) + (if asLeader then [Go(StartLeaderElection)] else []) + [Unlock(Nodes)]
    case UpdateNodeStatus => Section(Nodes, Exclusive)
    case FindLeaderAddress => Section(Nodes, Shared)
  }

  /** A goroutine's program: some sequence of method calls. */
  function Program(calls: seq<Call>): seq<Op> {
    if calls == [] then [] else Trace(calls[0]) + Program(calls[1..])
  }

  // ---- Goroutines and locks ----------------------------------------------

  /**
   How a goroutine stands to one mutex. `Queued`: it has announced itself as next writer and waits for the
   readers.
   */
  datatype Hold = Free | Reading | Queued | Writing

  datatype Thread = Thread(nodes: Hold, leader: Hold, rest: seq<Op>) {
    function On(mutex: Mutex): Hold {
      match mutex case Nodes => nodes case Leader => leader
    }

    function Set(mutex: Mutex, hold: Hold): Thread {
      match mutex case Nodes => this.(nodes := hold) case Leader => this.(leader := hold)
    }

    function Next(): Thread
      requires rest != []
    {
      this.(rest := rest[1..])
    }
  }

  type Pool = seq<Thread>

  /** No goroutine writes the mutex or is queued to. */
  ghost predicate NoWriter(pool: Pool, mutex: Mutex) {
    forall t :: t in pool ==> t.On(mutex) != Writing && t.On(mutex) != Queued
  }

  ghost predicate NoReader(pool: Pool, mutex: Mutex) {
    forall t :: t in pool ==> t.On(mutex) != Reading
  }

  /** Goroutine i can take a step. */
  ghost predicate CanStep(pool: Pool, i: nat) {
    i < |pool| && pool[i].rest != [] &&
    match pool[i].rest[0]
    case Lock(mutex, Shared) => NoWriter(pool, mutex)
    case Lock(mutex, Exclusive) => if pool[i].On(mutex) == Queued then NoReader(pool, mutex) else NoWriter(pool, mutex)
    case Unlock(_) => true
    case Go(_) => true
  }

  /** Locking for writing takes two steps: announcing, which blocks new readers, and acquiring. */
  function Step(pool: Pool, i: nat): Pool
    requires i < |pool| && pool[i].rest != []
  {
    var t := pool[i];
    match t.rest[0]
    case Lock(mutex, Shared) => pool[i := t.Next().Set(mutex, Reading)]
    case Lock(mutex, Exclusive) =>
      if t.On(mutex) == Queued then pool[i := t.Next().Set(mutex, Writing)] else pool[i := t.Set(mutex, Queued)]
    case Unlock(mutex) => pool[i := t.Next().Set(mutex, Free)]
    case Go(call) => pool[i := t.Next()] + [Thread(Free, Free, Trace(call))]
  }

  ghost predicate Possible(pool: Pool, run: seq<nat>)
    decreases |run|
  {
    run == [] || (CanStep(pool, run[0]) && Possible(Step(pool, run[0]), run[1..]))
  }

  ghost function After(pool: Pool, run: seq<nat>): Pool
    requires Possible(pool, run)
    decreases |run|
  {
    if run == [] then pool else After(Step(pool, run[0]), run[1..])
  }

  // ---- The discipline ----------------------------------------------------

  /**
   With these mutexes held, the program only locks Leader inside Nodes, nothing inside Leader, and releases all
   it holds.
   */
  predicate Disciplined(nodes: bool, leader: bool, ops: seq<Op>)
    decreases |ops|
  {
    if ops == [] then !nodes && !leader
    else match ops[0]
    case Lock(Nodes, _) => !nodes && !leader && Disciplined(true, false, ops[1..])
    case Lock(Leader, _) => !leader && Disciplined(nodes, true, ops[1..])
    case Unlock(Nodes) => nodes && Disciplined(false, leader, ops[1..])
    case Unlock(Leader) => leader && Disciplined(nodes, false, ops[1..])
    case Go(_) => Disciplined(nodes, leader, ops[1..])
  }

  /** A disciplined stretch that ends with nothing held can be followed by any disciplined program. */
  lemma {:induction false} DisciplinedConcat(nodes: bool, leader: bool, a: seq<Op>, b: seq<Op>)
    requires Disciplined(nodes, leader, a) && Disciplined(false, false, b)
    ensures Disciplined(nodes, leader, a + b)
    decreases |a|
  {
    if a == [] {
      assert a + b == b;
    } else {
      assert (a + b)[0] == a[0] && (a + b)[1..] == a[1..] + b;
      match a[0]
      case Lock(Nodes, _) => DisciplinedConcat(true, false, a[1..], b);
      case Lock(Leader, _) => DisciplinedConcat(nodes, true, a[1..], b);
      case Unlock(Nodes) => DisciplinedConcat(false, leader, a[1..], b);
      case Unlock(Leader) => DisciplinedConcat(nodes, false, a[1..], b);
      case Go(_) => DisciplinedConcat(nodes, leader, a[1..], b);
    }
  }

  lemma SectionDisciplined(mutex: Mutex, mode: Mode)
    ensures Disciplined(false, false, Section(mutex, mode))
  {
    assert Section(mutex, mode)[1..] == [Unlock(mutex)] && [Unlock(mutex)][1..] == [];
  }

  lemma {:induction false} SpawnsDisciplined(answered: seq<bool>)
    ensures Disciplined(false, false, Spawns(answered))
  {
    if answered != [] {
      SpawnsDisciplined(answered[1..]);
      assert Spawns(answered)[1..] == Spawns(answered[1..]);
    }
  }

  lemma TwoSections(m1: Mutex, k1: Mode, m2: Mutex, k2: Mode)
    ensures Disciplined(false, false, Section(m1, k1) + Section(m2, k2))
  {
    SectionDisciplined(m1, k1);
    SectionDisciplined(m2, k2);
    DisciplinedConcat(false, false, Section(m1, k1), Section(m2, k2));
  }

  /** The one nesting of the code: a Leader section, perhaps a goroutine start, inside an exclusive Nodes section. */
  lemma NestedDisciplined(mode: Mode, spawn: seq<Op>)
    requires spawn == [] || (|spawn| == 1 && spawn[0].Go?)
    ensures Disciplined(false, false, [Lock(Nodes, Exclusive)] + Section(Leader, mode) + spawn + [Unlock(Nodes)])
  {
    var tail := spawn + [Unlock(Nodes)];
    var ops := [Lock(Nodes, Exclusive)] + Section(Leader, mode) + spawn + [Unlock(Nodes)];
    assert tail[|spawn|..] == [Unlock(Nodes)] && [Unlock(Nodes)][1..] == [];
    assert spawn != [] ==> tail[1..] == [Unlock(Nodes)];
    assert Disciplined(true, false, tail);
    assert ops[1..] == Section(Leader, mode) + tail;
    assert ops[1..][1..] == [Unlock(Leader)] + tail;
    assert ops[1..][1..][1..] == tail;
  }

  /** Every method keeps the discipline. */
  lemma TraceDisciplined(call: Call)
    ensures Disciplined(false, false, Trace(call))
  {
    SectionDisciplined(Nodes, Shared);
    SectionDisciplined(Nodes, Exclusive);
    SectionDisciplined(Leader, Shared);
    match call
    case UpdateNodesFromHeartbeat =>
      NestedDisciplined(Exclusive, []);
      assert Trace(call) == [Lock(Nodes, Exclusive)] + Section(Leader, Exclusive) + [] + [Unlock(Nodes)];
    case RemoveNode(asLeader, known) =>
      NestedDisciplined(Shared, if asLeader then [Go(StartLeaderElection)] else []);
    case SendHeartbeat(answers) =>
      SpawnsDisciplined(answers);
      DisciplinedConcat(false, false, Section(Nodes, Shared), Spawns(answers));
      DisciplinedConcat(false, false, Section(Nodes, Shared) + Spawns(answers), Section(Nodes, Exclusive));
    case SendHeartbeatToNode(_) => TwoSections(Nodes, Shared, Nodes, Exclusive);
    case ShouldStartElection(_) => TwoSections(Leader, Shared, Nodes, Shared);
    case IsLeaderForFile(_) => TwoSections(Leader, Shared, Nodes, Shared);
    case StartLeaderElection =>
      TwoSections(Nodes, Shared, Leader, Exclusive);
      DisciplinedConcat(false, false, Section(Nodes, Shared) + Section(Leader, Exclusive), Section(Nodes, Exclusive));
    case BecomeLeader => TwoSections(Leader, Exclusive, Nodes, Exclusive);
    case SetLeader => TwoSections(Leader, Exclusive, Nodes, Exclusive);
    case _ =>
  }

  lemma {:induction false} ProgramDisciplined(calls: seq<Call>)
    ensures Disciplined(false, false, Program(calls))
  {
    if calls != [] {
      TraceDisciplined(calls[0]);
      ProgramDisciplined(calls[1..]);
      DisciplinedConcat(false, false, Trace(calls[0]), Program(calls[1..]));
    }
  }

  // ---- The invariant -----------------------------------------------------

  predicate Holds(hold: Hold) {
    hold == Reading || hold == Writing
  }

  /** The goroutine's program fits what it holds, and it is queued only for the lock it asks for next. */
  ghost predicate Ordered(t: Thread) {
    && Disciplined(Holds(t.nodes), Holds(t.leader), t.rest)
    && (forall mutex :: t.On(mutex) == Queued ==> t.rest != [] && t.rest[0] == Lock(mutex, Exclusive))
  }

  /**
   A mutex has one writer and no reader, or readers and no writer; at most one goroutine is queued, and not
   beside a writer.
   */
  ghost predicate Exclusion(pool: Pool, mutex: Mutex) {
    && (forall i, j :: 0 <= i < |pool| && 0 <= j < |pool| ==>
          pool[i].On(mutex) == Writing && pool[j].On(mutex) != Free ==> i == j)
    && (forall i, j :: 0 <= i < |pool| && 0 <= j < |pool| ==>
          pool[i].On(mutex) == Queued && pool[j].On(mutex) == Queued ==> i == j)
  }

  ghost predicate Sound(pool: Pool) {
    && (forall t :: t in pool ==> Ordered(t))
    && Exclusion(pool, Nodes) && Exclusion(pool, Leader)
  }

  lemma MoveKeepsOrdered(t: Thread)
    requires Ordered(t) && t.rest != []
    ensures match t.rest[0]
            case Lock(mutex, Shared) => Ordered(t.Next().Set(mutex, Reading))
            case Lock(mutex, Exclusive) =>
              if t.On(mutex) == Queued then Ordered(t.Next().Set(mutex, Writing)) else Ordered(t.Set(mutex, Queued))
            case Unlock(mutex) => Ordered(t.Next().Set(mutex, Free))
            case Go(_) => Ordered(t.Next())
  {
    assert t.On(Nodes) == t.nodes && t.On(Leader) == t.leader;
  }

  /** Replacing one goroutine's hold, where the change respects the others, keeps exclusion. */
  lemma ReplaceKeepsExclusion(pool: Pool, i: nat, t: Thread, mutex: Mutex)
    requires Exclusion(pool, mutex) && i < |pool|
    requires t.On(mutex) == pool[i].On(mutex) || t.On(mutex) == Free
             || (t.On(mutex) == Reading && NoWriter(pool, mutex))
             || (t.On(mutex) == Queued && NoWriter(pool, mutex))
             || (t.On(mutex) == Writing && pool[i].On(mutex) == Queued && NoReader(pool, mutex))
    ensures Exclusion(pool[i := t], mutex)
  {
  }

  lemma SpawnKeepsExclusion(pool: Pool, t: Thread, mutex: Mutex)
    requires Exclusion(pool, mutex) && t.On(mutex) == Free
    ensures Exclusion(pool + [t], mutex)
  {
  }

  lemma StepKeepsExclusion(pool: Pool, i: nat, mutex: Mutex)
    requires Sound(pool) && CanStep(pool, i)
    ensures Exclusion(Step(pool, i), mutex)
  {
    var t := pool[i];
    match t.rest[0]
    case Lock(m, Shared) => ReplaceKeepsExclusion(pool, i, t.Next().Set(m, Reading), mutex);
    case Lock(m, Exclusive) =>
      ReplaceKeepsExclusion(pool, i, if t.On(m) == Queued then t.Next().Set(m, Writing) else t.Set(m, Queued), mutex);
    case Unlock(m) => ReplaceKeepsExclusion(pool, i, t.Next().Set(m, Free), mutex);
    case Go(call) =>
      ReplaceKeepsExclusion(pool, i, t.Next(), mutex);
      SpawnKeepsExclusion(pool[i := t.Next()], Thread(Free, Free, Trace(call)), mutex);
  }

  lemma StepKeepsSound(pool: Pool, i: nat)
    requires Sound(pool) && CanStep(pool, i)
    ensures Sound(Step(pool, i))
  {
    MoveKeepsOrdered(pool[i]);
    if pool[i].rest[0].Go? {
      TraceDisciplined(pool[i].rest[0].call);
    }
    StepKeepsExclusion(pool, i, Nodes);
    StepKeepsExclusion(pool, i, Leader);
  }

  /** Any number of goroutines at the start of their programs. */
  ghost predicate Fresh(pool: Pool) {
    forall t :: t in pool ==> t.nodes == Free && t.leader == Free && exists calls :: t.rest == Program(calls)
  }

  lemma FreshIsSound(pool: Pool)
    requires Fresh(pool)
    ensures Sound(pool)
  {
    forall t | t in pool
      ensures Ordered(t)
    {
      var calls :| t.rest == Program(calls);
      ProgramDisciplined(calls);
      assert t.On(Nodes) == Free && t.On(Leader) == Free;
    }
  }

  lemma {:induction false} RunKeepsSound(pool: Pool, run: seq<nat>)
    requires Sound(pool) && Possible(pool, run)
    ensures Sound(After(pool, run))
    decreases |run|
  {
    if run != [] {
      StepKeepsSound(pool, run[0]);
      RunKeepsSound(Step(pool, run[0]), run[1..]);
    }
  }

  // ---- The theorems ------------------------------------------------------

  /** Sections exclude each other: beside a writer nobody else holds or awaits its turn at the mutex. */
  lemma SectionsExclude(pool: Pool, run: seq<nat>, mutex: Mutex, i: nat, j: nat)
    requires Fresh(pool) && Possible(pool, run)
    requires i < |After(pool, run)| && j < |After(pool, run)| && i != j
    ensures var end := After(pool, run); end[i].On(mutex) == Writing ==> end[j].On(mutex) == Free
  {
    FreshIsSound(pool);
    RunKeepsSound(pool, run);
  }

  /** A goroutine inside a Leader section can always go on. */
  lemma LeaderHolderSteps(pool: Pool, i: nat)
    requires Sound(pool) && i < |pool| && Holds(pool[i].leader)
    ensures CanStep(pool, i)
  {
    assert Ordered(pool[i]);
  }

  /** With no Leader section open, whoever asks for Leader can be served, or one queued for it can. */
  lemma LeaderAskerSteps(pool: Pool, i: nat) returns (k: nat)
    requires Sound(pool) && i < |pool| && pool[i].rest != []
    requires pool[i].rest[0].Lock? && pool[i].rest[0].mutex == Leader
    requires forall t :: t in pool ==> !Holds(t.leader)
    ensures CanStep(pool, k)
  {
    if t :| t in pool && t.leader == Queued {
      k :| 0 <= k < |pool| && pool[k] == t;
      assert Ordered(t) && t.On(Leader) == Queued;
    } else {
      k := i;
    }
  }

  lemma NodesAskerSteps(pool: Pool, i: nat) returns (k: nat)
    requires Sound(pool) && i < |pool| && pool[i].rest != []
    requires pool[i].rest[0].Lock? && pool[i].rest[0].mutex == Nodes
    requires forall t :: t in pool ==> !Holds(t.nodes)
    ensures CanStep(pool, k)
  {
    if t :| t in pool && t.nodes == Queued {
      k :| 0 <= k < |pool| && pool[k] == t;
      assert Ordered(t) && t.On(Nodes) == Queued;
    } else {
      k := i;
    }
  }

  /** In a sound pool with an unfinished goroutine, some goroutine can step. */
  lemma SoundNeverStuck(pool: Pool, i: nat) returns (k: nat)
    requires Sound(pool) && i < |pool| && pool[i].rest != []
    ensures CanStep(pool, k)
  {
    if t :| t in pool && Holds(t.leader) {
      k :| 0 <= k < |pool| && pool[k] == t;
      LeaderHolderSteps(pool, k);
    } else if t :| t in pool && Holds(t.nodes) {
      k :| 0 <= k < |pool| && pool[k] == t;
      assert Ordered(t);
      if t.rest[0].Lock? {
        k := LeaderAskerSteps(pool, k);
      }
    } else if pool[i].rest[0].Lock? {
      if pool[i].rest[0].mutex == Leader {
        k := LeaderAskerSteps(pool, i);
      } else {
        k := NodesAskerSteps(pool, i);
      }
    } else {
      k := i;
    }
  }

  /** Deadlock freedom: whatever has run, while any goroutine is unfinished some goroutine can step. */
  lemma NoDeadlock(pool: Pool, run: seq<nat>, i: nat) returns (k: nat)
    requires Fresh(pool) && Possible(pool, run)
    requires i < |After(pool, run)| && After(pool, run)[i].rest != []
    ensures CanStep(After(pool, run), k)
  {
    FreshIsSound(pool);
    RunKeepsSound(pool, run);
    k := SoundNeverStuck(After(pool, run), i);
  }

  // ---- Every run ends ----------------------------------------------------

  /** Two for each operation of a program that starts no goroutine. */
  function LeafCost(ops: seq<Op>): nat {
    2 * |ops|
  }

  /** Two for each operation, and what a goroutine it starts will cost. */
  function OpCost(op: Op): nat {
    if op.Go? then LeafCost(Trace(op.call)) + 4 else 2
  }

  function Cost(ops: seq<Op>): nat {
    if ops == [] then 0 else OpCost(ops[0]) + Cost(ops[1..])
  }

  ghost predicate Leaf(ops: seq<Op>) {
    forall op :: op in ops ==> !op.Go?
  }

  /** A goroutine in the pool: being queued is one step ahead of not being queued. */
  function Weight(t: Thread): nat {
    Cost(t.rest) + (if t.nodes == Queued then 0 else 1) + (if t.leader == Queued then 0 else 1)
  }

  function Measure(pool: Pool): nat {
    if pool == [] then 0 else Weight(pool[0]) + Measure(pool[1..])
  }

  lemma {:induction false} LeafCosts(ops: seq<Op>)
    requires Leaf(ops)
    ensures Cost(ops) == LeafCost(ops)
  {
    if ops != [] {
      LeafCosts(ops[1..]);
    }
  }

  /** Goroutines start only goroutines that start none. */
  ghost predicate Shallow(ops: seq<Op>) {
    forall op :: op in ops && op.Go? ==> Leaf(Trace(op.call))
  }

  lemma {:induction false} SpawnsShallow(answered: seq<bool>)
    ensures Shallow(Spawns(answered))
  {
    if answered != [] {
      SpawnsShallow(answered[1..]);
      assert Leaf(Trace(SendHeartbeatToNode(answered[0])));
    }
  }

  lemma TraceShallow(call: Call)
    ensures Shallow(Trace(call))
  {
    match call
    case SendHeartbeat(answers) => SpawnsShallow(answers);
    case RemoveNode(_, _) => assert Leaf(Trace(StartLeaderElection));
    case _ =>
  }

  lemma {:induction false} ProgramShallow(calls: seq<Call>)
    ensures Shallow(Program(calls))
  {
    if calls != [] {
      TraceShallow(calls[0]);
      ProgramShallow(calls[1..]);
    }
  }

  ghost predicate AllShallow(pool: Pool) {
    forall t :: t in pool ==> Shallow(t.rest)
  }

  lemma {:induction false} MeasureUpdate(pool: Pool, i: nat, t: Thread)
    requires i < |pool|
    ensures Measure(pool[i := t]) + Weight(pool[i]) == Measure(pool) + Weight(t)
  {
    if i == 0 {
      assert pool[i := t][1..] == pool[1..];
    } else {
      MeasureUpdate(pool[1..], i - 1, t);
      assert pool[i := t][1..] == pool[1..][i - 1 := t];
    }
  }

  lemma {:induction false} MeasureSpawn(pool: Pool, t: Thread)
    ensures Measure(pool + [t]) == Measure(pool) + Weight(t)
  {
    if pool == [] {
      assert (pool + [t])[1..] == [];
    } else {
      MeasureSpawn(pool[1..], t);
      assert (pool + [t])[1..] == pool[1..] + [t];
    }
  }

  lemma StepShortens(pool: Pool, i: nat)
    requires AllShallow(pool) && CanStep(pool, i)
    ensures AllShallow(Step(pool, i)) && Measure(Step(pool, i)) < Measure(pool)
  {
    var t := pool[i];
    var moved := t.Next();
    assert t in pool && forall op :: op in t.rest[1..] ==> op in t.rest;
    match t.rest[0]
    case Lock(mutex, Shared) => MeasureUpdate(pool, i, moved.Set(mutex, Reading));
    case Lock(mutex, Exclusive) =>
      MeasureUpdate(pool, i, if t.On(mutex) == Queued then moved.Set(mutex, Writing) else t.Set(mutex, Queued));
    case Unlock(mutex) => MeasureUpdate(pool, i, moved.Set(mutex, Free));
    case Go(_) => SpawnShortens(pool, i);
  }

  /** What it starts costs what was set aside for it. */
  lemma SpawnCosts(t: Thread)
    requires Shallow(t.rest) && t.rest != [] && t.rest[0].Go?
    ensures var child := Thread(Free, Free, Trace(t.rest[0].call));
            Shallow(child.rest) && Shallow(t.Next().rest) && Weight(t.Next()) + Weight(child) < Weight(t)
  {
    assert t.rest[0] in t.rest && forall op :: op in t.rest[1..] ==> op in t.rest;
    LeafCosts(Trace(t.rest[0].call));
  }

  lemma SpawnShortens(pool: Pool, i: nat)
    requires AllShallow(pool) && CanStep(pool, i) && pool[i].rest[0].Go?
    ensures AllShallow(Step(pool, i)) && Measure(Step(pool, i)) < Measure(pool)
  {
    var t, call := pool[i], pool[i].rest[0].call;
    var child := Thread(Free, Free, Trace(call));
    assert t in pool;
    SpawnCosts(t);
    MeasureUpdate(pool, i, t.Next());
    MeasureSpawn(pool[i := t.Next()], child);
    assert Step(pool, i) == pool[i := t.Next()] + [child];
  }

  /** No run is longer than the work its goroutines came with. */
  lemma {:induction false} RunsAreShort(pool: Pool, run: seq<nat>)
    requires AllShallow(pool) && Possible(pool, run)
    ensures |run| + Measure(After(pool, run)) <= Measure(pool)
    decreases |run|
  {
    if run != [] {
      StepShortens(pool, run[0]);
      RunsAreShort(Step(pool, run[0]), run[1..]);
    }
  }

  lemma FreshIsShallow(pool: Pool)
    requires Fresh(pool)
    ensures AllShallow(pool)
  {
    forall t | t in pool
      ensures Shallow(t.rest)
    {
      var calls :| t.rest == Program(calls);
      ProgramShallow(calls);
    }
  }

  /** Every run is bounded, and one that cannot go on has finished every call and released every mutex. */
  lemma MaximalRunsFinish(pool: Pool, run: seq<nat>)
    requires Fresh(pool) && Possible(pool, run)
    ensures |run| <= Measure(pool)
    ensures (forall k: nat :: !CanStep(After(pool, run), k)) ==>
              forall t :: t in After(pool, run) ==> t == Thread(Free, Free, [])
  {
    FreshIsShallow(pool);
    RunsAreShort(pool, run);
    FreshIsSound(pool);
    RunKeepsSound(pool, run);
    var end := After(pool, run);
    if forall k: nat :: !CanStep(end, k) {
      forall t | t in end
        ensures t == Thread(Free, Free, [])
      {
        var i :| 0 <= i < |end| && end[i] == t;
        if t.rest != [] {
          var k := SoundNeverStuck(end, i);
        }
        assert Ordered(t) && t.On(Nodes) == t.nodes && t.On(Leader) == t.leader;
      }
    }
  }

  /**
   Called inside RemoveNode's section instead of started as a goroutine, the election would block on its own
   caller.
   */
  lemma InlineElectionDeadlocks()
    ensures var inline := [Lock(Nodes, Exclusive)] + Section(Leader,
        Shared) + Trace(StartLeaderElection) + [Unlock(Nodes)];
            var pool := [Thread(Free, Free, inline)];
            && Possible(pool, [0, 0, 0, 0])
            && After(pool, [0, 0, 0, 0])[0].rest != []
            && forall k :: !CanStep(After(pool, [0, 0, 0, 0]), k)
  {
    var election := Trace(StartLeaderElection) + [Unlock(Nodes)];
    var inline := [Lock(Nodes, Exclusive)] + Section(Leader, Shared) + Trace(StartLeaderElection) + [Unlock(Nodes)];
    var p0 := [Thread(Free, Free, inline)];
    var p1 := [Thread(Queued, Free, inline)];
    var p2 := [Thread(Writing, Free, Section(Leader, Shared) + election)];
    var p3 := [Thread(Writing, Reading, [Unlock(Leader)] + election)];
    var p4 := [Thread(Writing, Free, election)];
    assert inline[1..] == Section(Leader, Shared) + election;
    assert (Section(Leader, Shared) + election)[1..] == [Unlock(Leader)] + election;
    assert ([Unlock(Leader)] + election)[1..] == election;
    assert Step(p0, 0) == p1 && Step(p1, 0) == p2 && Step(p2, 0) == p3 && Step(p3, 0) == p4;
    assert After(p3, [0]) == After(p4, []) by { assert [0][1..] == []; }
    assert After(p2, [0, 0]) == p4 && Possible(p2, [0, 0]) by { assert [0, 0][1..] == [0]; }
    assert After(p1, [0, 0, 0]) == p4 && Possible(p1, [0, 0, 0]) by { assert [0, 0, 0][1..] == [0, 0]; }
    assert After(p0, [0, 0, 0, 0]) == p4 && Possible(p0, [0, 0, 0, 0]) by { assert [0, 0, 0, 0][1..] == [0, 0, 0]; }
    assert election[0] == Lock(Nodes, Shared) && p4[0].On(Nodes) == Writing;
  }
}
