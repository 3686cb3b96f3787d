/**
 The decisions of one node spelled out across sender and receiver: which version a strategy
 takes, what an announcement tells, how a record is dated, and what a write or a delete on
 one node means to the next.
 */
module Versions {
  import opened Prelude
  import opened GoTime
  import opened FileSync

  // ---- Which version wins ------------------------------------------------

  /** "timestamp" is also what every unknown strategy name means. */
  predicate ComparesTimes(strategy: Strategy) {
    strategy.ByTimestamp? || strategy.Unknown?
  }

  /** The path is watched, and record and event name two different versions of it. */
  predicate Rivals(records: map<Path, Record>, event: FileEvent) {
    && IsFileInWatchedPaths(event.path) && event.path in records
    && records[event.path].checksum != "" && event.checksum != ""
    && records[event.path].checksum != event.checksum
  }

  lemma WatchedPaths(path: Path)
    ensures IsFileInWatchedPaths(path) <==> "/app/data" <= path || "/opt/tomcat/webapps/zenoptics/resources" <= path
  {
    assert WATCHED_PATHS[0] == "/app/data" && WATCHED_PATHS[1] == "/opt/tomcat/webapps/zenoptics/resources";
  }

  /** Between two versions each strategy decides by its one comparison, whatever the clock says. */
  lemma RivalsAreDecided(strategy: Strategy, records: map<Path, Record>, event: FileEvent, now: Time)
    requires Rivals(records, event)
    ensures HandleFileEvent(strategy, records, event, now).1 <==>
            if ComparesTimes(strategy) then event.timestamp > records[event.path].modTime
            else strategy.BySize? && event.size > records[event.path].size
  {
  }

  /**
   Under "timestamp" a later announcement is taken whenever an earlier one is, and none that is no newer than
   the file.
   */
  lemma LaterAnnouncementsWin(strategy: Strategy, records: map<Path, Record>, earlier: FileEvent, later: FileEvent,
          now: Time)
    requires ComparesTimes(strategy) && Rivals(records, earlier) && Rivals(records, later) && earlier.path == later.path
    requires earlier.timestamp <= later.timestamp
    ensures HandleFileEvent(strategy, records, earlier, now).1 ==> HandleFileEvent(strategy, records, later, now).1
    ensures later.timestamp <= records[later.path].modTime ==>
              !HandleFileEvent(strategy, records, earlier, now).1 && !HandleFileEvent(strategy, records, later, now).1
  {
    RivalsAreDecided(strategy, records, earlier, now);
    RivalsAreDecided(strategy, records, later, now);
  }

  /** In manual mode whatever passes the filter and is not requested marks the record, and nothing else does. */
  lemma ManualMarksExactly(records: map<Path, Record>, event: FileEvent, now: Time)
    requires event.path in records
    ensures var (after, wanted) := HandleFileEvent(Manually, records, event, now);
            var record := records[event.path];
            var passed := IsFileInWatchedPaths(event.path) && record.checksum != event.checksum;
            after == if passed && !wanted
                     then records[event.path := Record(record.size, record.modTime, record.checksum, record.lastSync,
                         "conflict")]
                     else records
  {
  }

  // ---- What an announcement tells ----------------------------------------

  /** A firing at t is received as an event of the file as it is on disk, dated with the whole second of t. */
  lemma AnnouncementTellsTheFile(hash: Hash, self: Peer, node: Node, path: Path, removed: bool, t: Time)
    ensures var sent := FireWatcher(hash, self, node, Watch(path, removed), t).sent;
            && sent.Some? && sent.value.kind == Event && sent.value.from == self
            && var event := EventOf(sent.value);
            && event.path == path && t - SECOND < event.timestamp <= t && event.timestamp % SECOND == 0
            && if removed || path !in node.disk then event.checksum == "" && event.size == 0
               else event.checksum == hash(node.disk[path].content) && event.size == |node.disk[path].content|
  {
  }

  /** The one whole second in reach. */
  lemma WholeSecond(x: Time, t: Time)
    requires x % SECOND == 0 && t - SECOND < x <= t
    ensures x == t / SECOND * SECOND
  {
  }

  /**
   From sender to receiver: a peer that compares times and has recorded another version, modified at m,
   asks for the announced file exactly if the whole second of the announcement lies after m.
   */
  lemma UpdateIsFetchedExactly(hash: Hash, self: Peer, node: Node, path: Path, t: Time,
                               peer: Peer, strategy: Strategy, other: Node, u: Time)
    requires peer != self && ComparesTimes(strategy) && IsFileInWatchedPaths(path)
    requires path in node.disk && path in other.records
    requires var checksum := hash(node.disk[path].content);
             checksum != "" && other.records[path].checksum != "" && other.records[path].checksum != checksum
    ensures var sent := FireWatcher(hash, self, node, Watch(path, false), t).sent;
            && sent.Some?
            && var reply := ProcessMessage(peer, strategy, other, sent.value, u).sent;
               if t / SECOND * SECOND > other.records[path].modTime
               then reply.Some? && reply.value.kind == Request && reply.value.path == path && reply.value.from == peer
               else reply.None?
  {
    AnnouncementTellsTheFile(hash, self, node, path, false, t);
    var msg := FireWatcher(hash, self, node, Watch(path, false), t).sent.value;
    WholeSecond(EventOf(msg).timestamp, t);
    RivalsAreDecided(strategy, other.records, EventOf(msg), u);
  }

  // ---- How a record is dated ---------------------------------------------

  /** The record a publication at t leaves: what the event says, synced at t; all other records stay. */
  lemma PublicationIsRecorded(self: Peer, node: Node, event: FileEvent, t: Time, path: Path)
    ensures var after := PublishFileEvent(self, node, event, t).node;
            && after.disk == node.disk && after.pending == node.pending
            && (path in after.records <==> path in node.records || path == event.path)
            && (path in after.records ==>
                  after.records[path] == if path == event.path
                                         then Record(event.size, event.modTime, event.checksum, t, "synced")
                                         else node.records[path])
  {
  }

  /** For five seconds after a publication an event without a checksum meets a conflict; then it is let in. */
  lemma WindowFollowsPublication(strategy: Strategy, self: Peer, node: Node, mine: FileEvent, t: Time,
          event: FileEvent, u: Time)
    requires IsFileInWatchedPaths(mine.path) && mine.checksum != ""
    requires event.path == mine.path && event.checksum == ""
    ensures HandleFileEvent(strategy, PublishFileEvent(self, node, mine, t).node.records, event, u).1 <==>
            || u >= t + 5_000_000_000
            || (strategy.BySize? && event.size > mine.size)
            || (ComparesTimes(strategy) && event.timestamp > mine.modTime)
  {
  }

  /** Against a publication, another version is decided by time or size alone, and the same version is never fetched. */
  lemma PublicationMeetsRival(strategy: Strategy, self: Peer, node: Node, mine: FileEvent, t: Time, event: FileEvent,
          u: Time)
    requires IsFileInWatchedPaths(mine.path) && mine.checksum != "" && event.path == mine.path && event.checksum != ""
    ensures HandleFileEvent(strategy, PublishFileEvent(self, node, mine, t).node.records, event, u).1 <==>
            && event.checksum != mine.checksum
            && ((strategy.BySize? && event.size > mine.size)
                || (ComparesTimes(strategy) && event.timestamp > mine.modTime))
  {
  }

  // ---- From a write to its record ----------------------------------------

  /** A response written at t and announced at u leaves a record of exactly the data received, modified at t. */
  lemma ResponseIsRecorded(hash: Hash, self: Peer, strategy: Strategy, node: Node, msg: Message, t: Time, u: Time)
    requires msg.kind == Response && msg.from != self
    ensures var written := ProcessMessage(self, strategy, node, msg, t);
            && written.sent.None? && Watch(msg.path, false) in written.node.pending
            && var fired := FireWatcher(hash, self, written.node, Watch(msg.path, false), u).node;
            && msg.path in fired.disk && fired.disk[msg.path].content == msg.data
            && msg.path in fired.records
            && fired.records[msg.path] == Record(|msg.data|, t, hash(msg.data), u, "synced")
            && Watch(msg.path, false) !in fired.pending
  {
  }

  /** A response is what the request asked for: the file as it is, or silence. */
  lemma RequestIsAnswered(self: Peer, strategy: Strategy, node: Node, msg: Message, t: Time)
    requires msg.kind == Request && msg.from != self
    ensures var reaction := ProcessMessage(self, strategy, node, msg, t);
            && reaction.node == node
            && (reaction.sent.Some? <==> msg.path in node.disk)
            && (reaction.sent.Some? ==>
                  && reaction.sent.value.kind == Response && reaction.sent.value.path == msg.path
                  && reaction.sent.value.data == node.disk[msg.path].content && reaction.sent.value.from == self
                  && reaction.sent.value.size == |reaction.sent.value.data|)
  {
  }

  /** A deleted file is gone, its announcement names no version, and requests for it get no answer; other files stay. */
  lemma DeleteIsAnnounced(hash: Hash, self: Peer, strategy: Strategy, node: Node, path: Path, t: Time, request: Message)
    requires request.kind == Request && request.from != self && request.path == path
    ensures var removed := FileSync.Remove(node, path);
            && Watch(path, true) in removed.pending
            && (forall p :: p in removed.disk <==> p in node.disk && p != path)
            && (forall p :: p in removed.disk ==> removed.disk[p] == node.disk[p])
            && var reaction := FireWatcher(hash, self, removed, Watch(path, true), t);
            && reaction.sent.Some? && EventOf(reaction.sent.value).checksum == ""
            && path in reaction.node.records && reaction.node.records[path] == Record(0, ZERO_TIME, "", t, "synced")
            && ProcessMessage(self, strategy, reaction.node, request, t).sent.None?
  {
  }
}
