/**
 One running node: the `FileSyncProtocol` with its map of shared `FileState` objects,
 the disk it writes, the watcher it wakes and the messages it publishes. Every method
 is proved to act on the node's abstract value exactly as module FileSync says.
 */
module FileSyncNode {
  import opened GoTime
  import opened FileSync

  class FileState {
    const path: Path
    var size: int
    var modTime: Time
    var checksum: string
    var lastSync: Time
    var syncStatus: string

    constructor (path: Path, record: Record)
      ensures this.path == path && Value() == record
    {
      this.path := path;
      size, modTime, checksum := record.size, record.modTime, record.checksum;
      lastSync, syncStatus := record.lastSync, record.syncStatus;
    }

    function Value(): Record
      reads this
    {
      Record(size, modTime, checksum, lastSync, syncStatus)
    }
  }

  class FileSyncProtocol {
    const self: Peer
    const strategy: Strategy
    var fileStates: map<Path, FileState>
    var disk: map<Path, File>
    var pending: set<Watch>
    var published: seq<Message>

    /** Each state is filed under its own path, so no two paths share one object. */
    ghost predicate Valid()
      reads this, fileStates.Values
    {
      forall p :: p in fileStates ==> fileStates[p].path == p
    }

    ghost function Records(): map<Path, Record>
      reads this, fileStates.Values
    {
      map p | p in fileStates :: fileStates[p].Value()
    }

    ghost function Value(): Node
      reads this, fileStates.Values
    {
      Node(disk, Records(), pending)
    }

    constructor (self: Peer, strategy: Strategy, disk: map<Path, File>)
      ensures Valid()
      ensures this.self == self && this.strategy == strategy
      ensures Value() == Node(disk, map[], {}) && published == []
    {
      this.self := self;
      this.strategy := strategy;
      this.disk := disk;
      fileStates, pending, published := map[], {}, [];
    }

    method IsInWatchedPaths(path: Path) returns (watched: bool)
      ensures watched == IsFileInWatchedPaths(path)
    {
      for i := 0 to |WATCHED_PATHS|
        invariant forall j :: 0 <= j < i ==> !(WATCHED_PATHS[j] <= path)
      {
        if WATCHED_PATHS[i] <= path {
          return true;
        }
      }
      return false;
    }

    method ShouldSync(event: FileEvent) returns (sync: bool)
      requires Valid()
      ensures sync == ShouldSyncFile(Records(), event)
    {
      var watched := IsInWatchedPaths(event.path);
      if !watched {
        return false;
      }
      if event.path in fileStates && fileStates[event.path].checksum == event.checksum {
        return false;
      }
      return true;
    }

    method Conflicts(event: FileEvent, now: Time) returns (conflict: bool)
      requires Valid()
      ensures conflict == HasConflict(Records(), event, now)
    {
      if event.path !in fileStates {
        return false;
      }
      var state := fileStates[event.path];
      if state.lastSync > now - 5 * SECOND {
        return true;
      }
      if state.checksum != "" && event.checksum != "" && state.checksum != event.checksum {
        return true;
      }
      return false;
    }

    /** Flags the shared state object in place; a missing one is created first. */
    method ResolveManually(event: FileEvent) returns (proceed: bool)
      requires Valid()
      modifies this`fileStates, fileStates.Values
      ensures Valid() && fresh(fileStates.Values - old(fileStates.Values))
      ensures !proceed
      ensures Records() == MarkConflict(old(Records()), event.path)
    {
      if event.path !in fileStates {
        var state := new FileState(event.path, Record(0, ZERO_TIME, "", ZERO_TIME, ""));
        fileStates := fileStates[event.path := state];
      }
      var state := fileStates[event.path];
      state.syncStatus := "conflict";
      assert forall p :: p in fileStates && p != event.path ==> fileStates[p] != state;
      return false;
    }

    method Resolve(event: FileEvent) returns (proceed: bool)
      requires Valid()
      modifies this`fileStates, fileStates.Values
      ensures Valid() && fresh(fileStates.Values - old(fileStates.Values))
      ensures (Records(), proceed) == ResolveConflict(strategy, old(Records()), event)
    {
      match strategy
      case Manually =>
        proceed := ResolveManually(event);
      case BySize =>
        proceed := event.path !in fileStates || event.size > fileStates[event.path].size;
      case ByTimestamp =>
        proceed := event.path !in fileStates || event.timestamp > fileStates[event.path].modTime;
      case Unknown(_) =>
        proceed := event.path !in fileStates || event.timestamp > fileStates[event.path].modTime;
    }

    method UpdateFileState(event: FileEvent, now: Time)
      requires Valid()
      modifies this`fileStates
      ensures Valid() && fresh(fileStates.Values - old(fileStates.Values))
      ensures Records() == old(Records())[event.path := RecordOf(event, now)]
    {
      var state := new FileState(event.path, RecordOf(event, now));
      fileStates := fileStates[event.path := state];
    }

    /** `PublishFileEvent`: the announcement goes out before the record is replaced. */
    method Publish(event: FileEvent, now: Time)
      requires Valid()
      modifies this`fileStates, this`published
      ensures Valid() && fresh(fileStates.Values - old(fileStates.Values))
      ensures var reaction := PublishFileEvent(self, old(Value()), event, now);
              && Value() == reaction.node
              && published == old(published) + [reaction.sent.value]
    {
      published := published + [EventMessage(self, event, now)];
      UpdateFileState(event, now);
    }

    method HandleEvent(event: FileEvent, now: Time)
      requires Valid()
      modifies this`fileStates, this`published, fileStates.Values
      ensures Valid() && fresh(fileStates.Values - old(fileStates.Values))
      ensures var (records, wanted) := HandleFileEvent(strategy, old(Records()), event, now);
              && Records() == records
              && published == old(published) + if wanted then [RequestMessage(self, event.path, now)] else []
    {
      var sync := ShouldSync(event);
      if sync {
        var conflict := Conflicts(event, now);
        if conflict {
          var proceed := Resolve(event);
          if !proceed {
            return;
          }
        }
        published := published + [RequestMessage(self, event.path, now)];
      }
    }

    method HandleRequest(path: Path, now: Time)
      modifies this`published
      ensures published == old(published) +
              if path in disk then [ResponseMessage(self, path, disk[path].content, now)] else []
    {
      if path in disk {
        published := published + [ResponseMessage(self, path, disk[path].content, now)];
      }
    }

    /** `createOrModifyFile`, and the notification the file system raises for it. */
    method WriteFile(path: Path, content: Content, now: Time)
      requires Valid()
      modifies this`disk, this`pending
      ensures Valid() && Value() == Write(old(Value()), path, content, now)
    {
      disk := disk[path := File(content, now)];
      pending := pending + {Watch(path, false)};
    }

    /** Delivery of one message: the node and its output follow ProcessMessage. */
    method Process(msg: Message, now: Time)
      requires Valid()
      modifies this, fileStates.Values
      ensures Valid() && fresh(fileStates.Values - old(fileStates.Values))
      ensures var reaction := ProcessMessage(self, strategy, old(Value()), msg, now);
              && Value() == reaction.node
              && published == old(published) + match reaction.sent case None => [] case Some(m) => [m]
    {
      if msg.from == self {
        return;
      }
      match msg.kind
      case Event => HandleEvent(EventOf(msg), now);
      case Request => HandleRequest(msg.path, now);
      case Response => WriteFile(msg.path, msg.data, now);
      case Other(_) =>
    }

    /** The engine's `processFileEvent` for one notification of this node's watcher. */
    method ProcessWatch(hash: Hash, watch: Watch, now: Time)
      requires Valid()
      modifies this`fileStates, this`pending, this`published
      ensures Valid() && fresh(fileStates.Values - old(fileStates.Values))
      ensures var reaction := FireWatcher(hash, self, old(Value()), watch, now);
              && Value() == reaction.node
              && published == old(published) + [reaction.sent.value]
    {
      pending := pending - {watch};
      var size, modTime, checksum := 0, ZERO_TIME, "";
      if !watch.removed && watch.path in disk {
        var file := disk[watch.path];
        size, modTime, checksum := |file.content|, file.modTime, hash(file.content);
      }
      Publish(FileEvent(watch.path, now, size, checksum, modTime), now);
    }
  }
}
