/**
 The in-memory publish/subscribe service: topics shared by name, and subscribers with
 bounded buffers that lose what does not fit.
 */
module PubSub {
  type Data = seq<bv8>

  /** Capacity of a subscription's channel. */
  const CAPACITY := 10

  /** What a subscription holds: undelivered messages, oldest first. */
  datatype Subscriber = Subscriber(channel: seq<Data>, cancelled: bool) {
    predicate Full() {
      |channel| >= CAPACITY
    }

    /** A send that never blocks: a message that finds the channel full is lost. */
    function Offer(data: Data): Subscriber {
      if Full() then this else this.(channel := channel + [data])
    }
  }

  const SUBSCRIBED := Subscriber([], false)

  function OfferAll(subs: seq<Subscriber>, data: Data): seq<Subscriber> {
    seq(|subs|, i requires 0 <= i < |subs| => subs[i].Offer(data))
  }

  function CancelAll(subs: seq<Subscriber>): seq<Subscriber> {
    seq(|subs|, i requires 0 <= i < |subs| => subs[i].(cancelled := true))
  }

  /** What `Next` comes back with; `Blocked` stands for a call that has nothing to return yet. */
  datatype Outcome = Received(data: Data) | CallerDone | Cancelled | Blocked

  class MockSubscription {
    const topic: MockTopic
    var cancelled: bool
    var channel: seq<Data>

    constructor (topic: MockTopic)
      ensures this.topic == topic && View() == SUBSCRIBED
    {
      this.topic, cancelled, channel := topic, false, [];
    }

    ghost function View(): Subscriber
      reads this
    {
      Subscriber(channel, cancelled)
    }

    /**
     Like Go's select, takes any of the ready cases: even a cancelled subscription may still hand out its
     messages.
     */
    method Next(callerDone: bool) returns (outcome: Outcome)
      modifies this`channel
      ensures match outcome
              case Received(data) => old(channel) == [data] + channel
              case CallerDone => callerDone && channel == old(channel)
              case Cancelled => cancelled && channel == old(channel)
              case Blocked => !callerDone && !cancelled && old(channel) == [] == channel
    {
      if {
        case callerDone =>
          outcome := CallerDone;
        case cancelled =>
          outcome := Cancelled;
        case channel != [] =>
          outcome := Received(channel[0]);
          channel := channel[1..];
        case !callerDone && !cancelled && channel == [] =>
          outcome := Blocked;
      }
    }

    method Cancel()
      modifies this`cancelled
      ensures cancelled && View() == old(View()).(cancelled := true)
    {
      cancelled := true;
    }
  }

  class MockTopic {
    const name: string
    var subs: seq<MockSubscription>

    constructor (name: string)
      ensures this.name == name && subs == [] && Valid()
    {
      this.name, subs := name, [];
    }

    /** No subscription is listed twice, so none is offered a message twice. */
    ghost predicate Valid()
      reads this
    {
      && (forall i, j :: 0 <= i < j < |subs| ==> subs[i] != subs[j])
      && (forall sub :: sub in subs ==> sub.topic == this)
    }

    ghost function View(): (view: seq<Subscriber>)
      reads this, subs
      ensures |view| == |subs|
    {
      seq(|subs|, i requires 0 <= i < |subs| reads this, subs => subs[i].View())
    }

    method Publish(data: Data)
      requires Valid()
      modifies subs
      ensures Valid() && View() == OfferAll(old(View()), data)
      ensures forall sub :: sub in subs ==>
                && sub.cancelled == old(sub.cancelled)
                && sub.channel == old(sub.channel) + if |old(sub.channel)| < 10 then [data] else []
    {
      var i := 0;
      while i < |subs|
        invariant 0 <= i <= |subs|
        invariant forall k :: 0 <= k < i ==> subs[k].View() == old(subs[k].View()).Offer(data)
        invariant forall k :: i <= k < |subs| ==> subs[k].View() == old(subs[k].View())
      {
        var sub := subs[i];
        if |sub.channel| < CAPACITY {
          sub.channel := sub.channel + [data];
        }
        i := i + 1;
      }
    }

    method Subscribe() returns (sub: MockSubscription)
      requires Valid()
      modifies this`subs
      ensures Valid() && fresh(sub)
      ensures subs == old(subs) + [sub] && View() == old(View()) + [SUBSCRIBED]
      ensures sub.topic == this && sub.channel == [] && !sub.cancelled
    {
      sub := new MockSubscription(this);
      subs := subs + [sub];
    }

    /** Cancels every subscription; they stay listed and keep being offered messages. */
    method Close()
      requires Valid()
      modifies subs
      ensures Valid() && View() == CancelAll(old(View()))
      ensures forall sub :: sub in subs ==> sub.cancelled && sub.channel == old(sub.channel)
    {
      var i := 0;
      while i < |subs|
        invariant 0 <= i <= |subs|
        invariant forall k :: 0 <= k < i ==> subs[k].View() == old(subs[k].View()).(cancelled := true)
        invariant forall k :: i <= k < |subs| ==> subs[k].View() == old(subs[k].View())
      {
        subs[i].Cancel();
        i := i + 1;
      }
    }
  }

  class MockPubSubService {
    var topics: map<string, MockTopic>

    constructor ()
      ensures topics == map[] && Valid()
    {
      topics := map[];
    }

    /** Topics are filed under their own names, so different names never share subscribers. */
    ghost predicate Valid()
      reads this
    {
      forall name :: name in topics ==> topics[name].name == name
    }

    /** The first to join creates the topic; everyone who joins later shares it. */
    method Join(name: string) returns (topic: MockTopic)
      requires Valid()
      modifies this`topics
      ensures Valid() && topics == old(topics)[name := topic]
      ensures name in old(topics) ==> topic == old(topics)[name]
      ensures name !in old(topics) ==> fresh(topic) && topic.subs == []
    {
      if name in topics {
        topic := topics[name];
      } else {
        topic := new MockTopic(name);
        topics := topics[name := topic];
      }
    }
  }
}
