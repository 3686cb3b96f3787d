/**
 One topic under any number of goroutines. Publishers hold only the read lock, so their
 walks over the subscribers interleave; subscribing and closing wait for all of them.
 */
module PubSubRuns {
  import opened PubSub

  /**
   `log` lists every message published so far; a message's place in it is its number.
   `publishers` gives, for each publication still under way, the next subscriber it will offer to.
   */
  datatype Topic = Topic(log: seq<Data>, subs: seq<Subscriber>, publishers: map<nat, nat>)

  const JOINED := Topic([], [], map[])

  datatype Step =
    | Start(data: Data)
    | Push(number: nat)
    | Finish(number: nat)
    | Subscribe
    | Receive(sub: nat)
    | Cancel(sub: nat)
    | Close

  predicate Enabled(t: Topic, step: Step) {
    match step
    case Start(_) => true
    case Push(n) => n in t.publishers && n < |t.log| && t.publishers[n] < |t.subs|
    case Finish(n) => n in t.publishers && t.publishers[n] >= |t.subs|
    case Subscribe => t.publishers == map[]
    case Receive(i) => i < |t.subs| && t.subs[i].channel != []
    case Cancel(i) => i < |t.subs|
    case Close => t.publishers == map[]
  }

  /** A step that is not enabled is a goroutine that waits: nothing changes. */
  function Apply(t: Topic, step: Step): Topic {
    if !Enabled(t, step) then t
    else match step
    case Start(data) => t.(log := t.log + [data], publishers := t.publishers[|t.log| := 0])
    case Push(n) =>
      var i := t.publishers[n];
      t.(subs := t.subs[i := t.subs[i].Offer(t.log[n])], publishers := t.publishers[n := i + 1])
    case Finish(n) => t.(publishers := t.publishers - {n})
    case Subscribe => t.(subs := t.subs + [SUBSCRIBED])
    case Receive(i) => t.(subs := t.subs[i := t.subs[i].(channel := t.subs[i].channel[1..])])
    case Cancel(i) => t.(subs := t.subs[i := t.subs[i].(cancelled := true)])
    case Close => t.(subs := CancelAll(t.subs))
  }

  function Last(run: seq<Step>): Step
    requires run != []
  {
    run[|run| - 1]
  }

  function Before(run: seq<Step>): seq<Step>
    requires run != []
  {
    run[..|run| - 1]
  }

  /** The topic after a run of steps, starting when it was first joined. */
  function After(run: seq<Step>): Topic
    decreases |run|
  {
    if run == [] then JOINED else Apply(After(Before(run)), Last(run))
  }

  // ---- What a run shows of one subscriber --------------------------------

  /** This step is publication n reaching subscriber i. */
  predicate Reaches(t: Topic, step: Step, i: nat) {
    step.Push? && Enabled(t, step) && t.publishers[step.number] == i
  }

  /** The messages `Next` has returned to subscriber i. */
  function Received(run: seq<Step>, i: nat): seq<Data>
    decreases |run|
  {
    if run == [] then []
    else Received(Before(run), i) +
         if Last(run) == Receive(i) && Enabled(After(Before(run)), Receive(i))
         then [After(Before(run)).subs[i].channel[0]] else []
  }

  /** The numbers of the messages offered to subscriber i, in the order they reached it. */
  function Offered(run: seq<Step>, i: nat): seq<nat>
    decreases |run|
  {
    if run == [] then []
    else Offered(Before(run), i) + if Reaches(After(Before(run)), Last(run), i) then [Last(run).number] else []
  }

  /** How many messages subscriber i lost. */
  function Dropped(run: seq<Step>, i: nat): nat
    decreases |run|
  {
    if run == [] then 0
    else Dropped(Before(run), i) +
         if Reaches(After(Before(run)), Last(run), i) && After(Before(run)).subs[i].Full() then 1 else 0
  }

  /** The length of the log when subscriber i subscribed. */
  function Since(run: seq<Step>, i: nat): nat
    decreases |run|
  {
    if run == [] then 0
    else if i < |After(Before(run)).subs| then Since(Before(run), i)
    else |After(Before(run)).log|
  }

  predicate Logged(log: seq<Data>, numbers: seq<nat>) {
    forall k :: 0 <= k < |numbers| ==> numbers[k] < |log|
  }

  /** The messages with these numbers. */
  function Payload(log: seq<Data>, numbers: seq<nat>): (data: seq<Data>)
    requires Logged(log, numbers)
    ensures |data| == |numbers|
  {
    seq(|numbers|, k requires 0 <= k < |numbers| => log[numbers[k]])
  }

  // ---- Subsequences ------------------------------------------------------

  /** a's elements stand in b at the increasing positions `at`. */
  predicate Embeds(at: seq<nat>, a: seq<Data>, b: seq<Data>) {
    && |at| == |a|
    && (forall k :: 0 <= k < |a| ==> at[k] < |b| && a[k] == b[at[k]])
    && (forall j, k :: 0 <= j < k < |a| ==> at[j] < at[k])
  }

  /** a arises from b by leaving elements out. */
  ghost predicate Subsequence(a: seq<Data>, b: seq<Data>) {
    exists at: seq<nat> :: Embeds(at, a, b)
  }

  lemma SubsequenceAppend(a: seq<Data>, b: seq<Data>, data: Data)
    requires Subsequence(a, b)
    ensures Subsequence(a, b + [data]) && Subsequence(a + [data], b + [data])
  {
    var at: seq<nat> :| Embeds(at, a, b);
    assert Embeds(at, a, b + [data]);
    assert Embeds(at + [|b|], a + [data], b + [data]);
  }

  lemma {:induction false} PositionsAdvance(at: seq<nat>, a: seq<Data>, b: seq<Data>, k: nat)
    requires Embeds(at, a, b) && k < |a|
    ensures k <= at[k] && |a| - k <= |b| - at[k]
    decreases |a| - k
  {
    if k < |a| - 1 {
      PositionsAdvance(at, a, b, k + 1);
    }
    for j := 0 to k
      invariant j <= at[j]
    {
    }
  }

  /** Nothing left out means nothing moved. */
  lemma SubsequenceOfSameLength(a: seq<Data>, b: seq<Data>)
    requires Subsequence(a, b) && |a| == |b|
    ensures a == b
  {
    var at: seq<nat> :| Embeds(at, a, b);
    forall k | 0 <= k < |a|
      ensures a[k] == b[k]
    {
      PositionsAdvance(at, a, b, k);
    }
  }

  // ---- Every run ---------------------------------------------------------

  /** Publications under way are logged, and no channel holds more than its capacity. */
  ghost predicate Sound(t: Topic) {
    && (forall n :: n in t.publishers ==> n < |t.log| && t.publishers[n] <= |t.subs|)
    && (forall i :: 0 <= i < |t.subs| ==> |t.subs[i].channel| <= CAPACITY)
  }

  lemma {:induction false} RunsAreSound(run: seq<Step>)
    ensures Sound(After(run))
    decreases |run|
  {
    if run != [] {
      RunsAreSound(Before(run));
    }
  }

  lemma {:induction false} OfferedIsLogged(run: seq<Step>, i: nat)
    ensures Logged(After(run).log, Offered(run, i))
    decreases |run|
  {
    if run != [] {
      OfferedIsLogged(Before(run), i);
    }
  }

  /** What the last step adds to what subscriber i is seen to do. */
  lemma LastStep(run: seq<Step>, i: nat)
    requires run != []
    ensures var t, step := After(Before(run)), Last(run);
            && After(run) == Apply(t, step)
            && Offered(run, i) == (if Reaches(t, step, i) then Offered(Before(run),
                i) + [step.number] else Offered(Before(run), i))
            && Received(run, i) == (if step == Receive(i) && Enabled(t, step)
                                    then Received(Before(run), i) + [t.subs[i].channel[0]] else Received(Before(run),
                                        i))
            && Dropped(run, i) == Dropped(Before(run), i) + if Reaches(t, step, i) && t.subs[i].Full() then 1 else 0
  {
  }

  lemma OneMore(run: seq<Step>, step: Step, i: nat)
    ensures var t := After(run);
            && After(run + [step]) == Apply(t, step)
            && Offered(run + [step], i) == (if Reaches(t, step, i) then Offered(run,
                i) + [step.number] else Offered(run, i))
            && Received(run + [step], i) == (if step == Receive(i) && Enabled(t, step)
                                             then Received(run, i) + [t.subs[i].channel[0]] else Received(run, i))
            && Dropped(run + [step], i) == Dropped(run, i) + if Reaches(t, step, i) && t.subs[i].Full() then 1 else 0
  {
    assert Before(run + [step]) == run && Last(run + [step]) == step;
    LastStep(run + [step], i);
  }

  /** Until it subscribes, nothing is offered to, received or lost by a subscriber. */
  lemma {:induction false} NothingBefore(run: seq<Step>, i: nat)
    requires i >= |After(run).subs|
    ensures Offered(run, i) == [] && Received(run, i) == [] && Dropped(run, i) == 0
    decreases |run|
  {
    if run != [] {
      NothingBefore(Before(run), i);
    }
  }

  /** Everything a subscriber has received or may still receive. */
  function Stream(run: seq<Step>, i: nat): seq<Data>
    requires i < |After(run).subs|
  {
    Received(run, i) + After(run).subs[i].channel
  }

  /** The messages offered to subscriber i, in the order they reached it. */
  function Offers(run: seq<Step>, i: nat): seq<Data> {
    OfferedIsLogged(run, i);
    Payload(After(run).log, Offered(run, i))
  }

  /** What one step does to a subscriber that is already there. */
  lemma StepOnSubscriber(t: Topic, step: Step, i: nat)
    requires i < |t.subs|
    ensures i < |Apply(t, step).subs| && t.log <= Apply(t, step).log
    ensures Apply(t, step).subs[i].channel ==
            if Reaches(t, step, i) then t.subs[i].Offer(t.log[step.number]).channel
            else if step == Receive(i) && Enabled(t, step) then t.subs[i].channel[1..]
            else t.subs[i].channel
  {
  }

  /** A subscriber appears only by subscribing, with an empty channel, while nobody publishes. */
  lemma StepOfSubscribing(t: Topic, step: Step, i: nat)
    requires i >= |t.subs| && i < |Apply(t, step).subs|
    ensures step == Subscribe && i == |t.subs| && t.publishers == map[]
    ensures Apply(t, step) == t.(subs := t.subs + [SUBSCRIBED])
  {
  }

  lemma TakingFirst(received: seq<Data>, channel: seq<Data>)
    requires channel != []
    ensures received + [channel[0]] + channel[1..] == received + channel
  {
  }

  lemma AddingLast(received: seq<Data>, channel: seq<Data>, data: Data)
    ensures received + (channel + [data]) == received + channel + [data]
  {
  }

  lemma StreamStep(run: seq<Step>, i: nat)
    requires run != [] && i < |After(Before(run)).subs|
    ensures i < |After(run).subs|
    ensures var t := After(Before(run));
            Stream(run, i) ==
              if Reaches(t, Last(run), i) && !t.subs[i].Full()
              then Stream(Before(run), i) + [t.log[Last(run).number]]
              else Stream(Before(run), i)
  {
    var before, last := Before(run), Last(run);
    var t := After(before);
    assert After(run) == Apply(t, last);
    LastStep(run, i);
    StepOnSubscriber(t, last, i);
    if Reaches(t, last, i) {
      AddingLast(Received(before, i), t.subs[i].channel, t.log[last.number]);
    } else if last == Receive(i) && Enabled(t, last) {
      TakingFirst(Received(before, i), t.subs[i].channel);
    }
  }

  lemma OffersStep(run: seq<Step>, i: nat)
    requires run != [] && i < |After(Before(run)).subs|
    ensures var t := After(Before(run));
            Offers(run, i) ==
              if Reaches(t, Last(run), i) then Offers(Before(run), i) + [t.log[Last(run).number]]
              else Offers(Before(run), i)
  {
    var t := After(Before(run));
    OfferedIsLogged(run, i);
    OfferedIsLogged(Before(run), i);
    StepOnSubscriber(t, Last(run), i);
  }

  /** Messages may be lost, but the rest come out as they were offered: none altered, repeated or moved. */
  lemma {:induction false} StreamKeepsOrder(run: seq<Step>, i: nat)
    requires i < |After(run).subs|
    ensures Subsequence(Stream(run, i), Offers(run, i))
    decreases |run|
  {
    var before := Before(run);
    var t := After(before);
    if i >= |t.subs| {
      StepOfSubscribing(t, Last(run), i);
      NothingBefore(before, i);
      assert Stream(run, i) == [];
      assert Embeds([], Stream(run, i), Offers(run, i));
    } else {
      StreamKeepsOrder(before, i);
      StreamStep(run, i);
      OffersStep(run, i);
      if Reaches(t, Last(run), i) {
        SubsequenceAppend(Stream(before, i), Offers(before, i), t.log[Last(run).number]);
      }
    }
  }

  /** Every message offered was received, waits in the channel, or was lost; at most ten wait. */
  lemma {:induction false} Conservation(run: seq<Step>, i: nat)
    requires i < |After(run).subs|
    ensures |Received(run, i)| + |After(run).subs[i].channel| + Dropped(run, i) == |Offered(run, i)|
    ensures |After(run).subs[i].channel| <= CAPACITY
    decreases |run|
  {
    var t := After(Before(run));
    RunsAreSound(run);
    if i >= |t.subs| {
      StepOfSubscribing(t, Last(run), i);
      NothingBefore(Before(run), i);
    } else {
      Conservation(Before(run), i);
      StepOnSubscriber(t, Last(run), i);
    }
  }

  // ---- Against the publication log ---------------------------------------

  lemma {:induction false} SubscribedWithinLog(run: seq<Step>, i: nat)
    requires i < |After(run).subs|
    ensures Since(run, i) <= |After(run).log|
    decreases |run|
  {
    var t := After(Before(run));
    if i >= |t.subs| {
      StepOfSubscribing(t, Last(run), i);
    } else {
      SubscribedWithinLog(Before(run), i);
      StepOnSubscriber(t, Last(run), i);
    }
  }

  /** Publication n is under way and has yet to come to subscriber i. */
  predicate Owed(t: Topic, n: nat, i: nat) {
    n in t.publishers && t.publishers[n] <= i
  }

  /** A publication is owed to a subscriber from its start until it reaches that subscriber. */
  lemma OwedStep(t: Topic, step: Step, i: nat, n: nat)
    requires Sound(t) && i < |t.subs|
    ensures Owed(Apply(t, step), n, i) <==>
            (Owed(t, n, i) && !(Reaches(t, step, i) && step.number == n)) || (step.Start? && n == |t.log|)
    ensures |Apply(t, step).log| == |t.log| + if step.Start? then 1 else 0
    ensures Reaches(t, step, i) ==> Owed(t, step.number, i)
  {
  }

  /** Exactly the publications since it subscribed are offered to a subscriber, but for those yet to come to it. */
  lemma {:induction false} OfferedExactly(run: seq<Step>, i: nat, n: nat)
    requires i < |After(run).subs|
    ensures n in Offered(run, i) <==> Since(run, i) <= n < |After(run).log| && !Owed(After(run), n, i)
    ensures Owed(After(run), n, i) ==> Since(run, i) <= n < |After(run).log|
    decreases |run|
  {
    var before, step := Before(run), Last(run);
    var t := After(before);
    LastStep(run, i);
    if i >= |t.subs| {
      StepOfSubscribing(t, step, i);
      NothingBefore(before, i);
    } else {
      OfferedExactly(before, i, n);
      SubscribedWithinLog(before, i);
      RunsAreSound(before);
      OwedStep(t, step, i, n);
    }
  }

  /** No publication is offered to a subscriber twice. */
  lemma {:induction false} OfferedOnce(run: seq<Step>, i: nat, x: nat, y: nat)
    requires x < y < |Offered(run, i)|
    ensures Offered(run, i)[x] != Offered(run, i)[y]
    decreases |run|
  {
    var t := After(Before(run));
    if y < |Offered(Before(run), i)| {
      OfferedOnce(Before(run), i, x, y);
    } else {
      var n := Last(run).number;
      assert Owed(t, n, i);
      OfferedExactly(Before(run), i, n);
      assert Offered(run, i)[x] in Offered(Before(run), i);
    }
  }

  function Elements(numbers: seq<nat>): set<nat> {
    set n | n in numbers
  }

  lemma {:induction false} DistinctCount(numbers: seq<nat>)
    requires forall x, y :: 0 <= x < y < |numbers| ==> numbers[x] != numbers[y]
    ensures |Elements(numbers)| == |numbers|
  {
    if numbers != [] {
      var rest := numbers[..|numbers| - 1];
      DistinctCount(rest);
      assert numbers[|numbers| - 1] !in rest && numbers == rest + [numbers[|numbers| - 1]];
      assert Elements(numbers) == Elements(rest) + {numbers[|numbers| - 1]};
    }
  }

  function Numbers(low: nat, high: nat): (numbers: set<nat>)
    requires low <= high
    ensures forall n :: n in numbers <==> low <= n < high
    ensures |numbers| == high - low
    decreases high
  {
    if low == high then {} else Numbers(low, high - 1) + {high - 1}
  }

  /**
   When no publication is under way: received, waiting and lost messages add up to all published since
   subscribing.
   */
  lemma PublishedIsAccountedFor(run: seq<Step>, i: nat)
    requires i < |After(run).subs| && After(run).publishers == map[]
    ensures |Received(run, i)| + |After(run).subs[i].channel| + Dropped(run, i) == |After(run).log| - Since(run, i)
  {
    var low, high, numbers := Since(run, i), |After(run).log|, Offered(run, i);
    Conservation(run, i);
    SubscribedWithinLog(run, i);
    forall n: nat
      ensures n in numbers <==> low <= n < high
    {
      OfferedExactly(run, i, n);
    }
    forall x, y | 0 <= x < y < |numbers|
      ensures numbers[x] != numbers[y]
    {
      OfferedOnce(run, i, x, y);
    }
    DistinctCount(numbers);
    assert Elements(numbers) == Numbers(low, high);
  }

  // ---- Order -------------------------------------------------------------

  lemma {:induction false} FinishedStaysFinished(run: seq<Step>, k: nat, n: nat)
    requires k <= |run| && n < |After(run[..k]).log| && n !in After(run[..k]).publishers
    ensures n < |After(run).log| && n !in After(run).publishers
    decreases |run|
  {
    if k == |run| {
      assert run[..k] == run;
    } else {
      assert Before(run)[..k] == run[..k];
      FinishedStaysFinished(Before(run), k, n);
    }
  }

  /** If publication a was over before b began, whoever is offered both is offered a first. */
  lemma {:induction false} EarlierIsOfferedFirst(run: seq<Step>, i: nat, k: nat, x: nat, y: nat)
    requires k <= |run| && x < |Offered(run, i)| && y < |Offered(run, i)|
    requires Offered(run, i)[x] < |After(run[..k]).log| <= Offered(run, i)[y]
    requires Offered(run, i)[x] !in After(run[..k]).publishers
    ensures x < y
    decreases |run|
  {
    if k == |run| {
      assert run[..k] == run;
      OfferedIsLogged(run, i);
      assert false;
    } else {
      assert Before(run)[..k] == run[..k];
      FinishedStaysFinished(Before(run), k, Offered(run, i)[x]);
      if y < |Offered(Before(run), i)| {
        EarlierIsOfferedFirst(Before(run), i, k, x, y);
      }
    }
  }

  /** Each publication begins when all earlier ones are over. */
  predicate Serial(run: seq<Step>)
    decreases |run|
  {
    run == [] || (Serial(Before(run)) && (Last(run).Start? ==> After(Before(run)).publishers == map[]))
  }

  function Interval(low: nat, high: nat): (numbers: seq<nat>)
    requires low <= high
  {
    seq(high - low, k requires 0 <= k => low + k)
  }

  lemma IntervalGrows(low: nat, high: nat)
    requires low <= high
    ensures Interval(low, high) + [high] == Interval(low, high + 1)
  {
  }

  /** In a serial run only the newest publication can be under way. */
  lemma {:induction false} OneAtATime(run: seq<Step>, n: nat)
    requires Serial(run) && n in After(run).publishers
    ensures n == |After(run).log| - 1
    decreases |run|
  {
    if run != [] && n in After(Before(run)).publishers {
      OneAtATime(Before(run), n);
    }
  }

  /** How far subscriber i has been offered the log of a serial run. */
  function Reach(t: Topic, i: nat): nat {
    if t.log != [] && Owed(t, |t.log| - 1, i) then |t.log| - 1 else |t.log|
  }

  lemma ReachStep(t: Topic, step: Step, i: nat)
    requires Sound(t) && i < |t.subs|
    requires forall n :: n in t.publishers ==> n == |t.log| - 1
    requires step.Start? ==> t.publishers == map[]
    ensures Reaches(t, step, i) ==> step.number == Reach(t, i)
    ensures Reach(Apply(t, step), i) == Reach(t, i) + if Reaches(t, step, i) then 1 else 0
  {
  }

  lemma SerialReach(run: seq<Step>, i: nat)
    requires run != [] && Serial(run) && i < |After(Before(run)).subs|
    ensures var t, step := After(Before(run)), Last(run);
            && (Reaches(t, step, i) ==> step.number == Reach(t, i))
            && Reach(After(run), i) == Reach(t, i) + if Reaches(t, step, i) then 1 else 0
  {
    var t := After(Before(run));
    RunsAreSound(Before(run));
    forall n | n in t.publishers
      ensures n == |t.log| - 1
    {
      OneAtATime(Before(run), n);
    }
    ReachStep(t, Last(run), i);
  }

  /** What the last step of a run does to the offers of a subscriber that was already there. */
  lemma SerialOffersStep(run: seq<Step>, i: nat, low: nat, offered: seq<nat>)
    requires run != [] && Serial(run) && i < |After(Before(run)).subs|
    requires low <= Reach(After(Before(run)), i) && offered == Interval(low, Reach(After(Before(run)), i))
    ensures low <= Reach(After(run), i)
    ensures Interval(low, Reach(After(run), i)) ==
            if Reaches(After(Before(run)), Last(run), i) then offered + [Last(run).number] else offered
  {
    SerialReach(run, i);
    IntervalGrows(low, Reach(After(Before(run)), i));
  }

  lemma SerialOffersStart(run: seq<Step>, i: nat)
    requires run != [] && |After(Before(run)).subs| <= i < |After(run).subs|
    ensures Since(run, i) == Reach(After(run), i) && Offered(run, i) == []
  {
    var before := Before(run);
    StepOfSubscribing(After(before), Last(run), i);
    RunsAreSound(before);
    LastStep(run, i);
    NothingBefore(before, i);
  }

  lemma {:induction false} SerialOffers(run: seq<Step>, i: nat)
    requires Serial(run) && i < |After(run).subs|
    ensures Since(run, i) <= Reach(After(run), i) && Offered(run, i) == Interval(Since(run, i), Reach(After(run), i))
    decreases |run|
  {
    if i >= |After(Before(run)).subs| {
      SerialOffersStart(run, i);
    } else {
      SerialOffers(Before(run), i);
      SerialOffersStep(run, i, Since(Before(run), i), Offered(Before(run), i));
      LastStep(run, i);
    }
  }

  lemma PayloadOfInterval(log: seq<Data>, low: nat, high: nat)
    requires low <= high <= |log|
    ensures Logged(log, Interval(low, high)) && Payload(log, Interval(low, high)) == log[low..high]
  {
  }

  lemma SubsequenceOfPrefix(a: seq<Data>, b: seq<Data>, c: seq<Data>)
    requires Subsequence(a, b) && b <= c
    ensures Subsequence(a, c)
  {
    var at: seq<nat> :| Embeds(at, a, b);
    assert Embeds(at, a, c);
  }

  /** Without overlapping publications, a subscriber's stream is a subsequence of the log since it subscribed. */
  lemma SerialStreamFollowsLog(run: seq<Step>, i: nat)
    requires Serial(run) && i < |After(run).subs|
    ensures Since(run, i) <= |After(run).log|
    ensures Subsequence(Stream(run, i), After(run).log[Since(run, i)..])
  {
    SerialOffers(run, i);
    StreamKeepsOrder(run, i);
    SliceOfLog(After(run), Since(run, i), i);
    SubsequenceOfPrefix(Stream(run, i), Offers(run, i), After(run).log[Since(run, i)..]);
  }

  lemma SliceOfLog(t: Topic, low: nat, i: nat)
    requires low <= Reach(t, i)
    ensures low <= |t.log| && Logged(t.log, Interval(low, Reach(t, i)))
    ensures Payload(t.log, Interval(low, Reach(t, i))) <= t.log[low..]
  {
    PayloadOfInterval(t.log, low, Reach(t, i));
  }

  // ---- Overlapping publications ------------------------------------------

  lemma {:induction false} OfferedGrows(run: seq<Step>, more: seq<Step>, i: nat)
    ensures Offered(run, i) <= Offered(run + more, i) && |After(run).subs| <= |After(run + more).subs|
    decreases |more|
  {
    if more == [] {
      assert run + more == run;
    } else {
      assert Before(run + more) == run + Before(more);
      OfferedGrows(run, Before(more), i);
      LastStep(run + more, i);
    }
  }

  lemma PushMovesOn(t: Topic, n: nat, i: nat)
    requires Sound(t) && i < |t.subs| && Owed(t, n, i)
    ensures var t' := Apply(t, Push(n));
            && |t'.subs| == |t.subs| && t'.log == t.log
            && t'.publishers == t.publishers[n := t.publishers[n] + 1]
            && (Reaches(t, Push(n), i) <==> t.publishers[n] == i)
  {
  }

  /** Publisher n has gone on to just behind subscriber i, and nothing else has moved. */
  ghost predicate Advanced(t: Topic, t': Topic, n: nat, i: nat) {
    |t'.subs| == |t.subs| && t'.log == t.log && t'.publishers == t.publishers[n := i + 1]
  }

  lemma {:induction false} AdvanceTo(run: seq<Step>, n: nat, i: nat) returns (longer: seq<Step>)
    requires i < |After(run).subs| && Owed(After(run), n, i)
    ensures run <= longer && Advanced(After(run), After(longer), n, i)
    ensures Offered(longer, i) == Offered(run, i) + [n]
    decreases i - After(run).publishers[n]
  {
    var t := After(run);
    RunsAreSound(run);
    PushMovesOn(t, n, i);
    OneMore(run, Push(n), i);
    longer := run + [Push(n)];
    if t.publishers[n] < i {
      longer := AdvanceTo(longer, n, i);
      assert t.publishers[n := t.publishers[n] + 1][n := i + 1] == t.publishers[n := i + 1];
    }
  }

  /** A publisher under way can go on to subscriber i without any other moving. */
  lemma ReachSubscriber(run: seq<Step>, n: nat, i: nat) returns (longer: seq<Step>)
    requires i < |After(run).subs| && Owed(After(run), n, i)
    ensures run <= longer && |After(longer).subs| == |After(run).subs|
    ensures After(longer).log == After(run).log
    ensures After(longer).publishers == After(run).publishers[n := i + 1]
    ensures Offered(longer, i) == Offered(run, i) + [n]
    ensures forall k :: k != n ==> (Owed(After(longer), k, i) <==> Owed(After(run), k, i))
  {
    longer := AdvanceTo(run, n, i);
  }

  /** Publication m comes before publication n in the list. */
  ghost predicate ComesBefore(numbers: seq<nat>, m: nat, n: nat) {
    exists x, y :: 0 <= x < y < |numbers| && numbers[x] == m && numbers[y] == n
  }

  /** A publication that starts after this run reaches subscriber i before the earlier publication n does. */
  ghost predicate Overtaken(run: seq<Step>, data: Data, more: seq<Step>, i: nat, n: nat) {
    n < |After(run).log| && ComesBefore(Offered(run + [Start(data)] + more, i), |After(run).log|, n)
  }

  /** A new publication starts, goes on to subscriber i, and only then the owed one does. */
  lemma StartsAndOvertakes(run: seq<Step>, data: Data, i: nat, n: nat) returns (longer: seq<Step>)
    requires i < |After(run).subs| && Owed(After(run), n, i)
    ensures run + [Start(data)] <= longer
    ensures Offered(longer, i) == Offered(run, i) + [|After(run).log|] + [n]
  {
    var started := run + [Start(data)];
    RunsAreSound(run);
    OneMore(run, Start(data), i);
    var first := ReachSubscriber(started, |After(run).log|, i);
    longer := ReachSubscriber(first, n, i);
  }

  lemma LastTwo(numbers: seq<nat>, m: nat, n: nat)
    ensures ComesBefore(numbers + [m] + [n], m, n)
  {
    var all := numbers + [m] + [n];
    assert all[|numbers|] == m && all[|numbers| + 1] == n;
  }

  lemma OwedIsOvertaken(run: seq<Step>, data: Data, i: nat, n: nat) returns (more: seq<Step>)
    requires i < |After(run).subs| && Owed(After(run), n, i)
    ensures Overtaken(run, data, more, i, n)
  {
    var longer := StartsAndOvertakes(run, data, i, n);
    more := longer[|run + [Start(data)]|..];
    assert longer == run + [Start(data)] + more;
    LastTwo(Offered(run, i), |After(run).log|, n);
    RunsAreSound(run);
  }

  lemma LaterComesAfter(early: seq<nat>, all: seq<nat>, n: nat, m: nat)
    requires early <= all && n in early && m in all && m !in early
    ensures ComesBefore(all, n, m)
  {
    var x: nat :| x < |early| && early[x] == n;
    var y: nat :| y < |all| && all[y] == m;
    assert all[x] == n && forall k :: 0 <= k < |early| ==> early[k] == all[k];
  }

  /** A publication begun before the run's last stretch can be brought to subscriber j at its end. */
  lemma ReachesToo(run: seq<Step>, data: Data, more: seq<Step>, j: nat) returns (longer: seq<Step>)
    requires j < |After(run).subs|
    ensures run + [Start(data)] + more <= longer && |After(run).log| in Offered(longer, j)
  {
    var m, started := |After(run).log|, run + [Start(data)];
    longer := started + more;
    OneMore(run, Start(data), j);
    OfferedGrows(started, more, j);
    SinceIsKept(run, [Start(data)], j);
    SinceIsKept(started, more, j);
    SubscribedWithinLog(run, j);
    LogGrows(started, more);
    OfferedExactly(longer, j, m);
    if m !in Offered(longer, j) {
      longer := ReachSubscriber(longer, m, j);
    }
  }

  lemma OfferedAtLeast(run: seq<Step>, longer: seq<Step>, i: nat)
    requires run <= longer
    ensures Offered(run, i) <= Offered(longer, i)
  {
    assert longer == run + longer[|run|..];
    OfferedGrows(run, longer[|run|..], i);
  }

  lemma StillComesBefore(early: seq<nat>, all: seq<nat>, m: nat, n: nat)
    requires early <= all && ComesBefore(early, m, n)
    ensures ComesBefore(all, m, n)
  {
    var x, y :| 0 <= x < y < |early| && early[x] == m && early[y] == n;
    assert all[x] == m && all[y] == n;
  }

  /** If in addition another subscriber has been offered n already, the two end with opposite orders. */
  lemma SubscribersCanDisagree(run: seq<Step>, data: Data, i: nat, j: nat, n: nat) returns (longer: seq<Step>)
    requires i < |After(run).subs| && j < |After(run).subs|
    requires Owed(After(run), n, i) && n in Offered(run, j)
    ensures run <= longer
    ensures var m := |After(run).log|;
            ComesBefore(Offered(longer, i), m, n) && ComesBefore(Offered(longer, j), n, m)
  {
    var m := |After(run).log|;
    var more := OwedIsOvertaken(run, data, i, n);
    var overtaken := run + [Start(data)] + more;
    longer := ReachesToo(run, data, more, j);
    OfferedAtLeast(overtaken, longer, i);
    StillComesBefore(Offered(overtaken, i), Offered(longer, i), m, n);
    assert run <= longer;
    OfferedAtLeast(run, longer, j);
    OfferedIsLogged(run, j);
    LaterComesAfter(Offered(run, j), Offered(longer, j), n, m);
  }

  lemma {:induction false} LogGrows(run: seq<Step>, more: seq<Step>)
    ensures |After(run).log| <= |After(run + more).log|
    decreases |more|
  {
    if more == [] {
      assert run + more == run;
    } else {
      assert Before(run + more) == run + Before(more);
      LogGrows(run, Before(more));
    }
  }

  /** A later publication b can only come first where the earlier one a is still owed. */
  lemma LaterFirstMeansOwed(run: seq<Step>, more: seq<Step>, i: nat, a: nat, b: nat)
    requires i < |After(run).subs| && a < |After(run).log| <= b
    requires ComesBefore(Offered(run + more, i), b, a)
    ensures Owed(After(run), a, i)
  {
    var numbers := Offered(run + more, i);
    var x, y :| 0 <= x < y < |numbers| && numbers[x] == b && numbers[y] == a;
    OfferedGrows(run, more, i);
    SinceIsKept(run, more, i);
    OfferedExactly(run + more, i, a);
    OfferedExactly(run, i, a);
    if !Owed(After(run), a, i) {
      var z :| 0 <= z < |Offered(run, i)| && Offered(run, i)[z] == a;
      OfferedIsLogged(run, i);
      assert numbers[z] == a;
      OfferedOnce(run + more, i, if z < y then z else y, if z < y then y else z);
    }
  }

  lemma OvertakenIsOwed(run: seq<Step>, data: Data, more: seq<Step>, i: nat, n: nat)
    requires i < |After(run).subs| && Overtaken(run, data, more, i, n)
    ensures Owed(After(run), n, i)
  {
    assert run + [Start(data)] + more == run + ([Start(data)] + more);
    LaterFirstMeansOwed(run, [Start(data)] + more, i, n, |After(run).log|);
  }

  /** In a continuation of the run subscriber i is offered the later publication b first, and j the earlier one a. */
  ghost predicate Opposed(run: seq<Step>, longer: seq<Step>, i: nat, j: nat, a: nat, b: nat) {
    && run <= longer && a < |After(run).log| <= b
    && ComesBefore(Offered(longer, i), b, a) && ComesBefore(Offered(longer, j), a, b)
  }

  /** Two subscribers can come to disagree about one of the publications so far and a later one. */
  ghost predicate CanDisagree(run: seq<Step>, i: nat, j: nat) {
    exists longer, a, b :: Opposed(run, longer, i, j, a, b) || Opposed(run, longer, j, i, a, b)
  }

  lemma {:induction false} UnderWaySince(run: seq<Step>, n: nat, j: nat)
    requires j < |After(run).subs| && n in After(run).publishers
    ensures Since(run, j) <= n < |After(run).log|
    decreases |run|
  {
    var t := After(Before(run));
    RunsAreSound(run);
    if j >= |t.subs| {
      StepOfSubscribing(t, Last(run), j);
    } else if n in t.publishers {
      UnderWaySince(Before(run), n, j);
    } else {
      SubscribedWithinLog(Before(run), j);
    }
  }

  /** Owed to i but no longer to j. */
  lemma PassedMeansDisagree(run: seq<Step>, data: Data, i: nat, j: nat, n: nat) returns (longer: seq<Step>)
    requires i < |After(run).subs| && j < |After(run).subs| && Owed(After(run), n, i) && !Owed(After(run), n, j)
    ensures Opposed(run, longer, i, j, n, |After(run).log|)
  {
    UnderWaySince(run, n, j);
    OfferedExactly(run, j, n);
    longer := SubscribersCanDisagree(run, data, i, j, n);
  }

  /** Owed to both, and brought to the lower one first. */
  lemma OwedToBothMeansDisagree(run: seq<Step>, data: Data, low: nat, high: nat, n: nat) returns (longer: seq<Step>)
    requires low < high < |After(run).subs| && Owed(After(run), n, low) && Owed(After(run), n, high)
    ensures Opposed(run, longer, high, low, n, |After(run).log|)
  {
    var reached := ReachSubscriber(run, n, low);
    longer := PassedMeansDisagree(reached, data, high, low, n);
  }

  lemma DisagreeMeansOwed(run: seq<Step>, longer: seq<Step>, i: nat, j: nat, a: nat, b: nat)
    requires i < |After(run).subs| && Opposed(run, longer, i, j, a, b)
    ensures Owed(After(run), a, i)
  {
    assert longer == run + longer[|run|..];
    LaterFirstMeansOwed(run, longer[|run|..], i, a, b);
  }

  /** Two subscribers can end with opposite orders, exactly if some publication is still owed to one of them. */
  lemma SubscribersDisagreeExactly(run: seq<Step>, i: nat, j: nat)
    requires i < |After(run).subs| && j < |After(run).subs| && i != j
    ensures CanDisagree(run, i, j) <==> exists n :: Owed(After(run), n, i) || Owed(After(run), n, j)
  {
    if n :| Owed(After(run), n, i) || Owed(After(run), n, j) {
      if !Owed(After(run), n, j) {
        var longer := PassedMeansDisagree(run, [], i, j, n);
      } else if !Owed(After(run), n, i) {
        var longer := PassedMeansDisagree(run, [], j, i, n);
      } else if i < j {
        var longer := OwedToBothMeansDisagree(run, [], i, j, n);
      } else {
        var longer := OwedToBothMeansDisagree(run, [], j, i, n);
      }
    }
    if longer, a, b :| Opposed(run, longer, i, j, a, b) || Opposed(run, longer, j, i, a, b) {
      if Opposed(run, longer, i, j, a, b) {
        DisagreeMeansOwed(run, longer, i, j, a, b);
      } else {
        DisagreeMeansOwed(run, longer, j, i, a, b);
      }
    }
  }

  lemma {:induction false} SinceIsKept(run: seq<Step>, more: seq<Step>, i: nat)
    requires i < |After(run).subs|
    ensures i < |After(run + more).subs| && Since(run + more, i) == Since(run, i)
    decreases |more|
  {
    if more == [] {
      assert run + more == run;
    } else {
      assert Before(run + more) == run + Before(more);
      SinceIsKept(run, Before(more), i);
      StepOnSubscriber(After(Before(run + more)), Last(run + more), i);
    }
  }

  /**
   A publication starting now can be offered to subscriber i before an earlier one, exactly if some publication
   is still owed to i.
   */
  lemma OvertakenExactlyWhenOwed(run: seq<Step>, data: Data, i: nat)
    requires i < |After(run).subs|
    ensures (exists more, n :: Overtaken(run, data, more, i, n)) <==> (exists n :: Owed(After(run), n, i))
  {
    if n :| Owed(After(run), n, i) {
      var more := OwedIsOvertaken(run, data, i, n);
    }
    if more, n :| Overtaken(run, data, more, i, n) {
      OvertakenIsOwed(run, data, more, i, n);
    }
  }

  ghost predicate Shows(run: seq<Step>, t: Topic, first: seq<nat>, second: seq<nat>) {
    After(run) == t && Offered(run, 0) == first && Offered(run, 1) == second
  }

  lemma ShowsNext(run: seq<Step>, step: Step, t: Topic, first: seq<nat>, second: seq<nat>) returns (longer: seq<Step>)
    requires Shows(run, t, first, second)
    ensures Shows(longer, Apply(t, step),
                  if Reaches(t, step, 0) then first + [step.number] else first,
                  if Reaches(t, step, 1) then second + [step.number] else second)
  {
    longer := run + [step];
    OneMore(run, step, 0);
    OneMore(run, step, 1);
  }

  /** Two publications under way at once, each with the next of two subscribers it comes to. */
  function Two(a: Data, b: Data, first: Subscriber, second: Subscriber, nextA: nat, nextB: nat): Topic {
    Topic([a, b], [first, second], map[0 := nextA, 1 := nextB])
  }

  lemma PushOfFirst(a: Data, b: Data, first: Subscriber, second: Subscriber, nextB: nat)
    ensures Apply(Two(a, b, first, second, 0, nextB), Push(0)) == Two(a, b, first.Offer(a), second, 1, nextB)
    ensures Apply(Two(a, b, first, second, 1, nextB), Push(0)) == Two(a, b, first, second.Offer(a), 2, nextB)
  {
    assert map[0 := 0, 1 := nextB][0 := 1] == map[0 := 1, 1 := nextB];
    assert map[0 := 1, 1 := nextB][0 := 2] == map[0 := 2, 1 := nextB];
    assert [first, second][0 := first.Offer(a)] == [first.Offer(a), second];
    assert [first, second][1 := second.Offer(a)] == [first, second.Offer(a)];
  }

  lemma PushOfSecond(a: Data, b: Data, first: Subscriber, second: Subscriber, nextA: nat)
    ensures Apply(Two(a, b, first, second, nextA, 0), Push(1)) == Two(a, b, first.Offer(b), second, nextA, 1)
    ensures Apply(Two(a, b, first, second, nextA, 1), Push(1)) == Two(a, b, first, second.Offer(b), nextA, 2)
  {
    assert map[0 := nextA, 1 := 0][1 := 1] == map[0 := nextA, 1 := 1];
    assert map[0 := nextA, 1 := 1][1 := 2] == map[0 := nextA, 1 := 2];
    assert [first, second][0 := first.Offer(b)] == [first.Offer(b), second];
    assert [first, second][1 := second.Offer(b)] == [first, second.Offer(b)];
  }

  lemma BothStart(a: Data, b: Data)
    ensures var t := Apply(Apply(JOINED, Subscribe), Subscribe);
            Apply(Apply(t, Start(a)), Start(b)) == Two(a, b, SUBSCRIBED, SUBSCRIBED, 0, 0)
  {
    var t := Apply(Apply(JOINED, Subscribe), Subscribe);
    assert t.log + [a] + [b] == [a, b];
    assert t.publishers[0 := 0][1 := 0] == map[0 := 0, 1 := 0];
  }

  lemma BothFinish(a: Data, b: Data, first: Subscriber, second: Subscriber)
    ensures Apply(Apply(Two(a, b, first, second, 2, 2), Finish(0)), Finish(1)) == Topic([a, b], [first, second], map[])
  {
    assert map[0 := 2, 1 := 2] - {0} == map[1 := 2];
    assert map[1 := 2] - {1} == map[];
  }

  lemma TwoPublicationsBegin(a: Data, b: Data) returns (run: seq<Step>)
    ensures Shows(run, Two(a, b, SUBSCRIBED, SUBSCRIBED, 0, 0), [], [])
  {
    var t1 := Apply(JOINED, Subscribe);
    var t2 := Apply(t1, Subscribe);
    BothStart(a, b);
    run := ShowsNext([], Subscribe, JOINED, [], []);
    run := ShowsNext(run, Subscribe, t1, [], []);
    run := ShowsNext(run, Start(a), t2, [], []);
    run := ShowsNext(run, Start(b), Apply(t2, Start(a)), [], []);
  }

  lemma OneReachesFirst(a: Data, b: Data) returns (run: seq<Step>)
    ensures Shows(run, Two(a, b, SUBSCRIBED.Offer(a), SUBSCRIBED, 1, 0), [0], [])
  {
    PushOfFirst(a, b, SUBSCRIBED, SUBSCRIBED, 0);
    run := TwoPublicationsBegin(a, b);
    run := ShowsNext(run, Push(0), Two(a, b, SUBSCRIBED, SUBSCRIBED, 0, 0), [], []);
  }

  lemma BothReachFirst(a: Data, b: Data) returns (run: seq<Step>)
    ensures Shows(run, Two(a, b, SUBSCRIBED.Offer(a).Offer(b), SUBSCRIBED, 1, 1), [0, 1], [])
  {
    var onlyA := SUBSCRIBED.Offer(a);
    PushOfSecond(a, b, onlyA, SUBSCRIBED, 1);
    run := OneReachesFirst(a, b);
    run := ShowsNext(run, Push(1), Two(a, b, onlyA, SUBSCRIBED, 1, 0), [0], []);
  }

  /** Both reach the first subscriber, then the later one overtakes on its way to the second. */
  lemma LaterOneOvertakes(a: Data, b: Data) returns (run: seq<Step>)
    ensures Shows(run, Two(a, b, SUBSCRIBED.Offer(a).Offer(b), SUBSCRIBED.Offer(b), 1, 2), [0, 1], [1])
  {
    var both := SUBSCRIBED.Offer(a).Offer(b);
    PushOfSecond(a, b, both, SUBSCRIBED, 1);
    run := BothReachFirst(a, b);
    run := ShowsNext(run, Push(1), Two(a, b, both, SUBSCRIBED, 1, 1), [0, 1], []);
  }

  /** Overlapping publications can reach two subscribers in different orders. */
  lemma OverlapReorders(a: Data, b: Data) returns (run: seq<Step>)
    ensures Offered(run, 0) == [0, 1] && Offered(run, 1) == [1, 0]
    ensures After(run) == Topic([a, b], [Subscriber([a, b], false), Subscriber([b, a], false)], map[])
  {
    var first, second := SUBSCRIBED.Offer(a).Offer(b), SUBSCRIBED.Offer(b).Offer(a);
    var over := Two(a, b, first, second, 2, 2);
    assert first.channel == [a, b] && second.channel == [b, a];
    PushOfFirst(a, b, first, SUBSCRIBED.Offer(b), 2);
    BothFinish(a, b, first, second);
    run := LaterOneOvertakes(a, b);
    run := ShowsNext(run, Push(0), Two(a, b, first, SUBSCRIBED.Offer(b), 1, 2), [0, 1], [1]);
    run := ShowsNext(run, Finish(0), over, [0, 1], [1, 0]);
    run := ShowsNext(run, Finish(1), Apply(over, Finish(0)), [0, 1], [1, 0]);
  }

  // ---- Loss --------------------------------------------------------------

  /** The subscriber was never more than a channel's capacity behind what it had been offered. */
  ghost predicate KeptUp(run: seq<Step>, i: nat) {
    forall k :: 0 <= k <= |run| ==> |Offered(run[..k], i)| <= |Received(run[..k], i)| + CAPACITY
  }

  lemma KeptUpStep(run: seq<Step>, i: nat)
    requires run != []
    ensures KeptUp(run, i) <==> KeptUp(Before(run), i) && |Offered(run, i)| <= |Received(run, i)| + CAPACITY
  {
    assert run[..|run|] == run;
    forall k | 0 <= k < |run|
      ensures Before(run)[..k] == run[..k]
    {
    }
    if KeptUp(run, i) {
      forall k | 0 <= k <= |Before(run)|
        ensures |Offered(Before(run)[..k], i)| <= |Received(Before(run)[..k], i)| + CAPACITY
      {
        assert Before(run)[..k] == run[..k];
      }
    }
    if KeptUp(Before(run), i) && |Offered(run, i)| <= |Received(run, i)| + CAPACITY {
      forall k | 0 <= k <= |run|
        ensures |Offered(run[..k], i)| <= |Received(run[..k], i)| + CAPACITY
      {
        if k < |run| {
          assert Before(run)[..k] == run[..k];
        }
      }
    }
  }

  /** A subscriber loses nothing exactly if it keeps up. */
  lemma {:induction false} LossExactlyWhenBehind(run: seq<Step>, i: nat)
    requires i < |After(run).subs|
    ensures Dropped(run, i) == 0 <==> KeptUp(run, i)
    decreases |run|
  {
    var t := After(Before(run));
    KeptUpStep(run, i);
    Conservation(run, i);
    if i >= |t.subs| {
      StepOfSubscribing(t, Last(run), i);
      NeverBehindBefore(Before(run), i);
    } else {
      LossExactlyWhenBehind(Before(run), i);
      Conservation(Before(run), i);
      StepOnSubscriber(t, Last(run), i);
    }
  }

  lemma {:induction false} NeverBehindBefore(run: seq<Step>, i: nat)
    requires i >= |After(run).subs|
    ensures KeptUp(run, i) && Dropped(run, i) == 0 && Offered(run, i) == []
    decreases |run|
  {
    NothingBefore(run, i);
    if run != [] {
      NeverBehindBefore(Before(run), i);
      KeptUpStep(run, i);
    }
  }

  /** A subscriber that keeps up gets, in order, everything it was offered. */
  lemma KeepingUpLosesNothing(run: seq<Step>, i: nat)
    requires i < |After(run).subs| && KeptUp(run, i)
    ensures Stream(run, i) == Offers(run, i)
  {
    LossExactlyWhenBehind(run, i);
    Conservation(run, i);
    StreamKeepsOrder(run, i);
    SubsequenceOfSameLength(Stream(run, i), Offers(run, i));
  }

  // ---- Independence ------------------------------------------------------

  /** What another subscriber than i does on its own. */
  predicate Elsewhere(step: Step, i: nat) {
    (step.Receive? || step.Cancel?) && step.sub != i
  }

  /** The run without what other subscribers do. */
  function Relevant(run: seq<Step>, i: nat): seq<Step>
    decreases |run|
  {
    if run == [] then []
    else Relevant(Before(run), i) + if Elsewhere(Last(run), i) then [] else [Last(run)]
  }

  ghost predicate SameFor(a: Topic, b: Topic, i: nat) {
    a.log == b.log && a.publishers == b.publishers && |a.subs| == |b.subs| && (i < |a.subs| ==> a.subs[i] == b.subs[i])
  }

  lemma StepSameFor(a: Topic, b: Topic, step: Step, i: nat)
    requires SameFor(a, b, i)
    ensures Elsewhere(step, i) ==> SameFor(Apply(a, step), b, i)
    ensures !Elsewhere(step, i) ==> SameFor(Apply(a, step), Apply(b, step), i)
  {
  }

  lemma {:induction false} OthersAreIrrelevant(run: seq<Step>, i: nat)
    ensures SameFor(After(run), After(Relevant(run, i)), i)
    ensures Offered(run, i) == Offered(Relevant(run, i), i)
    ensures Received(run, i) == Received(Relevant(run, i), i)
    ensures Dropped(run, i) == Dropped(Relevant(run, i), i)
    decreases |run|
  {
    if run != [] {
      var before, step := Before(run), Last(run);
      var kept := Relevant(before, i);
      OthersAreIrrelevant(before, i);
      StepSameFor(After(before), After(kept), step, i);
      LastStep(run, i);
      if Elsewhere(step, i) {
        assert Relevant(run, i) == kept;
      } else {
        OneMore(kept, step, i);
        assert Relevant(run, i) == kept + [step];
      }
    }
  }

  /** However fast or slow the others read, and whether they cancel, a subscriber sees the same. */
  lemma SubscribersAreIndependent(run: seq<Step>, other: seq<Step>, i: nat)
    requires Relevant(run, i) == Relevant(other, i)
    ensures Received(run, i) == Received(other, i) && Dropped(run, i) == Dropped(other, i)
    ensures SameFor(After(run), After(other), i)
  {
    OthersAreIrrelevant(run, i);
    OthersAreIrrelevant(other, i);
  }

  // ---- Publish as a run --------------------------------------------------

  function Pushes(n: nat, k: nat): seq<Step> {
    if k == 0 then [] else Pushes(n, k - 1) + [Push(n)]
  }

  /** The steps of one uninterrupted `Publish` on this topic. */
  function Publishing(t: Topic, data: Data): seq<Step> {
    [Start(data)] + Pushes(|t.log|, |t.subs|) + [Finish(|t.log|)]
  }

  /** The topic when publication of data has come to the first k subscribers. */
  function Halfway(t: Topic, data: Data, k: nat): Topic
    requires k <= |t.subs|
  {
    Topic(t.log + [data], OfferAll(t.subs[..k], data) + t.subs[k..], t.publishers[|t.log| := k])
  }

  lemma PushGoesOn(t: Topic, data: Data, k: nat)
    requires k < |t.subs|
    ensures Apply(Halfway(t, data, k), Push(|t.log|)) == Halfway(t, data, k + 1)
  {
    var mixed := OfferAll(t.subs[..k], data) + t.subs[k..];
    assert mixed[k] == t.subs[k];
    assert mixed[k := mixed[k].Offer(data)] == OfferAll(t.subs[..k + 1], data) + t.subs[k + 1..];
    assert t.publishers[|t.log| := k][|t.log| := k + 1] == t.publishers[|t.log| := k + 1];
  }

  lemma AfterOneMore(run: seq<Step>, step: Step, longer: seq<Step>)
    requires longer == run + [step]
    ensures After(longer) == Apply(After(run), step)
  {
    assert Before(longer) == run;
  }

  lemma PushesSplit(started: seq<Step>, n: nat, k: nat)
    requires k > 0
    ensures started + Pushes(n, k) == started + Pushes(n, k - 1) + [Push(n)]
  {
  }

  lemma {:induction false} PushesReachInOrder(started: seq<Step>, t: Topic, data: Data, k: nat)
    requires k <= |t.subs| && After(started) == Halfway(t, data, 0)
    ensures After(started + Pushes(|t.log|, k)) == Halfway(t, data, k)
  {
    if k == 0 {
      assert started + [] == started;
    } else {
      PushesReachInOrder(started, t, data, k - 1);
      PushesSplit(started, |t.log|, k);
      AfterOneMore(started + Pushes(|t.log|, k - 1), Push(|t.log|), started + Pushes(|t.log|, k));
      PushGoesOn(t, data, k - 1);
    }
  }

  lemma FinishRestores(t: Topic, data: Data)
    requires Sound(t)
    ensures Apply(Halfway(t, data, |t.subs|), Finish(|t.log|)) ==
            t.(log := t.log + [data], subs := OfferAll(t.subs, data))
  {
    var n, all := |t.log|, |t.subs|;
    assert t.subs[..all] == t.subs && OfferAll(t.subs, data) + t.subs[all..] == OfferAll(t.subs, data);
    assert t.publishers[n := all] - {n} == t.publishers;
  }

  lemma StartIsHalfway(run: seq<Step>, data: Data)
    ensures After(run + [Start(data)]) == Halfway(After(run), data, 0)
  {
    var t := After(run);
    AfterOneMore(run, Start(data), run + [Start(data)]);
    assert OfferAll(t.subs[..0], data) + t.subs[0..] == t.subs;
  }

  lemma PublishingSplits(run: seq<Step>, t: Topic, data: Data)
    ensures run + Publishing(t, data) == run + [Start(data)] + Pushes(|t.log|, |t.subs|) + [Finish(|t.log|)]
  {
  }

  /** Uninterrupted, the steps of a publication do what `MockTopic.Publish` does to every subscriber. */
  lemma PublishIsARun(run: seq<Step>, data: Data)
    ensures var t := After(run);
            After(run + Publishing(t, data)) == t.(log := t.log + [data], subs := OfferAll(t.subs, data))
  {
    var t := After(run);
    var started := run + [Start(data)];
    RunsAreSound(run);
    StartIsHalfway(run, data);
    PushesReachInOrder(started, t, data, |t.subs|);
    PublishingSplits(run, t, data);
    AfterOneMore(started + Pushes(|t.log|, |t.subs|), Finish(|t.log|), run + Publishing(t, data));
    FinishRestores(t, data);
  }

  // ---- Cancelling --------------------------------------------------------

  /** Step k of the run cancels subscriber i, on its own or with all others. */
  ghost predicate CancelsAt(run: seq<Step>, k: int, i: nat) {
    && 0 <= k < |run| && i < |After(run[..k]).subs|
    && (run[k] == Cancel(i) || (run[k] == Close && After(run[..k]).publishers == map[]))
  }

  /**
   A subscriber is cancelled exactly if it was, once, by itself or when nobody was publishing by closing the
   topic.
   */
  lemma {:induction false} CancelledExactly(run: seq<Step>, i: nat)
    requires i < |After(run).subs|
    ensures After(run).subs[i].cancelled <==> exists k :: CancelsAt(run, k, i)
    decreases |run|
  {
    var before := Before(run);
    var t, last := After(before), |run| - 1;
    assert run[..last] == before;
    forall k | 0 <= k < last
      ensures CancelsAt(run, k, i) <==> CancelsAt(before, k, i)
    {
      assert run[..k] == before[..k];
    }
    if i >= |t.subs| {
      StepOfSubscribing(t, Last(run), i);
      NotYetCancelled(before, i);
    } else {
      CancelledExactly(before, i);
      StepCancels(t, Last(run), i);
      assert After(run).subs[i].cancelled <==> t.subs[i].cancelled || CancelsAt(run, last, i);
      if k :| CancelsAt(before, k, i) {
        assert CancelsAt(run, k, i);
      }
    }
  }

  lemma StepCancels(t: Topic, step: Step, i: nat)
    requires i < |t.subs|
    ensures i < |Apply(t, step).subs|
    ensures Apply(t, step).subs[i].cancelled <==>
            t.subs[i].cancelled || step == Cancel(i) || (step == Close && t.publishers == map[])
  {
  }

  lemma {:induction false} NotYetCancelled(run: seq<Step>, i: nat)
    requires i >= |After(run).subs|
    ensures forall k :: !CancelsAt(run, k, i)
    decreases |run|
  {
    if run != [] {
      var before := Before(run);
      assert run[..|run| - 1] == before;
      NotYetCancelled(before, i);
      forall k | 0 <= k < |run| - 1
        ensures !CancelsAt(run, k, i)
      {
        assert run[..k] == before[..k] && !CancelsAt(before, k, i);
      }
    }
  }

  /**
   A message read by `Next` is the oldest waiting, and is gone afterwards; a cancelled subscription still has
   its messages.
   */
  lemma ReceivingTakesOldest(run: seq<Step>, i: nat)
    requires i < |After(run).subs| && After(run).subs[i].channel != []
    ensures var t, t' := After(run), After(run + [Receive(i)]);
            && Received(run + [Receive(i)], i) == Received(run, i) + [t.subs[i].channel[0]]
            && i < |t'.subs| && t'.subs[i].channel == t.subs[i].channel[1..]
            && t'.subs[i].cancelled == t.subs[i].cancelled
  {
    OneMore(run, Receive(i), i);
  }
}
