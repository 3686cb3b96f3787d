/**
 The failure detector of a leader: answered heartbeats refresh a peer, health checks
 fail the silent ones. As long as nothing else writes statuses, it is exact.
 */
module FailureDetector {
  import opened GoTime
  import opened Ids
  import opened Membership

  datatype Event = Answer(peer: ID, at: Time) | Touch(at: Time) | Check(at: Time)

  function Observe(m: Manager, e: Event, heartbeatTimeout: Time): Manager {
    match e
    case Answer(peer, at) => Acknowledge(m, peer, at)
    case Touch(at) => TouchSelf(m, at)
    case Check(at) => CheckHealth(m, at, heartbeatTimeout)
  }

  function After(m: Manager, events: seq<Event>, heartbeatTimeout: Time): Manager {
    if events == [] then m
    else Observe(After(m, events[..|events| - 1], heartbeatTimeout), events[|events| - 1], heartbeatTimeout)
  }

  /**
   Checks read the clock in the order in which they take the mutex, the last of them at or before `now`.
   Nothing is asked of the answers: a check may have read its clock before an answer that came in between.
   */
  ghost predicate ChecksInOrder(events: seq<Event>, now: Time) {
    && (forall i, j :: 0 <= i < j < |events| && events[i].Check? && events[j].Check? ==> events[i].at <= events[j].at)
    && (forall i :: 0 <= i < |events| && events[i].Check? ==> events[i].at <= now)
  }

  /** Heartbeats go to peers only. */
  ghost predicate ToPeers(self: ID, events: seq<Event>) {
    forall e :: e in events && e.Answer? ==> e.peer != self
  }

  ghost predicate PeersActive(m: Manager) {
    forall k :: k in m.nodes && k != m.id ==> m.nodes[k].status.Active?
  }

  /** Peers are active or failed, and a failed one was silent too long already before `now`. */
  ghost predicate FailedForCause(m: Manager, now: Time, heartbeatTimeout: Time) {
    forall k :: k in m.nodes && k != m.id ==>
      || m.nodes[k].status.Active?
      || (m.nodes[k].status.Failed? && now - m.nodes[k].lastSeen > heartbeatTimeout * 3)
  }

  lemma ObserveKeepsCause(m: Manager, e: Event, now: Time, heartbeatTimeout: Time)
    requires FailedForCause(m, now, heartbeatTimeout) && (e.Check? ==> e.at <= now)
    ensures FailedForCause(Observe(m, e, heartbeatTimeout), now, heartbeatTimeout)
  {
  }

  lemma {:induction false} RunKeepsCause(m: Manager, events: seq<Event>, now: Time, heartbeatTimeout: Time)
    requires PeersActive(m) && ChecksInOrder(events, now) && ToPeers(m.id, events)
    ensures FailedForCause(After(m, events, heartbeatTimeout), now, heartbeatTimeout)
    ensures var end := After(m, events, heartbeatTimeout);
            end.id == m.id && end.nodes.Keys == m.nodes.Keys && (m.id in m.nodes ==>
                end.nodes[m.id].status == m.nodes[m.id].status)
  {
    if events != [] {
      var before, last := events[..|events| - 1], events[|events| - 1];
      RunKeepsCause(m, before, now, heartbeatTimeout);
      ObserveKeepsCause(After(m, before, heartbeatTimeout), last, now, heartbeatTimeout);
    }
  }

  /** Right after a check a peer is active exactly if it was heard of within three timeouts; self keeps its status. */
  lemma DetectorIsExact(m: Manager, events: seq<Event>, now: Time, heartbeatTimeout: Time)
    requires PeersActive(m) && ChecksInOrder(events, now) && ToPeers(m.id, events)
    ensures var end := After(m, events + [Check(now)], heartbeatTimeout);
            && end.nodes.Keys == m.nodes.Keys
            && (forall k :: k in end.nodes && k != m.id ==>
                  && (end.nodes[k].status.Active? <==> now - end.nodes[k].lastSeen <= heartbeatTimeout * 3)
                  && (end.nodes[k].status.Active? || end.nodes[k].status.Failed?))
            && (m.id in m.nodes ==> end.nodes[m.id].status == m.nodes[m.id].status)
  {
    RunKeepsCause(m, events, now, heartbeatTimeout);
    assert (events + [Check(now)])[..|events|] == events;
  }

  /** The time a peer was last heard of: its latest answer, or the initial time. */
  function LastHeard(m: Manager, events: seq<Event>, k: ID): Time
    requires k in m.nodes
  {
    if events == [] then m.nodes[k].lastSeen
    else if events[|events| - 1] == Answer(k, events[|events| - 1].at) then events[|events| - 1].at
    else LastHeard(m, events[..|events| - 1], k)
  }

  lemma {:induction false} LastSeenIsLastHeard(m: Manager, events: seq<Event>, k: ID, heartbeatTimeout: Time)
    requires k in m.nodes && k != m.id
    ensures var end := After(m, events, heartbeatTimeout);
            end.id == m.id && end.nodes.Keys == m.nodes.Keys && end.nodes[k].lastSeen == LastHeard(m, events, k)
  {
    if events != [] {
      LastSeenIsLastHeard(m, events[..|events| - 1], k, heartbeatTimeout);
    }
  }

  /** In terms of the history: active means answered, or initially seen, no longer than three timeouts ago. */
  lemma DetectorFollowsAnswers(m: Manager, events: seq<Event>, now: Time, heartbeatTimeout: Time, k: ID)
    requires PeersActive(m) && ChecksInOrder(events, now) && ToPeers(m.id, events)
    requires k in m.nodes && k != m.id
    ensures var end := After(m, events + [Check(now)], heartbeatTimeout);
            k in end.nodes && (end.nodes[k].status.Active? <==> now - LastHeard(m, events, k) <= heartbeatTimeout * 3)
  {
    DetectorIsExact(m, events, now, heartbeatTimeout);
    LastSeenIsLastHeard(m, events + [Check(now)], k, heartbeatTimeout);
    assert (events + [Check(now)])[..|events|] == events;
  }

  /** When the manager last noted its own presence, on sending heartbeats. */
  function LastTouched(m: Manager, events: seq<Event>): Time
    requires m.id in m.nodes
  {
    if events == [] then m.nodes[m.id].lastSeen
    else if events[|events| - 1].Touch? then events[|events| - 1].at
    else LastTouched(m, events[..|events| - 1])
  }

  lemma {:induction false} SelfSeenIsLastTouched(m: Manager, events: seq<Event>, heartbeatTimeout: Time)
    requires m.id in m.nodes && ToPeers(m.id, events)
    ensures var end := After(m, events, heartbeatTimeout);
            end.id == m.id && m.id in end.nodes && end.nodes[m.id].lastSeen == LastTouched(m, events)
  {
    if events != [] {
      assert events[|events| - 1] in events;
      SelfSeenIsLastTouched(m, events[..|events| - 1], heartbeatTimeout);
    }
  }
}
