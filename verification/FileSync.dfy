/**
 The decisions of one node of the gossip file-sync protocol, on values:
 what a delivered message or a watcher event does to the node's disk, its file
 records and its watcher, and which message it publishes.
 */
module FileSync {
  import opened Prelude
  import opened GoTime

  type Path = string
  type Content = seq<bv8>
  type Peer = nat
  type Hash = Content -> string

  /** `conflict_resolution`; any unknown name falls back to timestamps. */
  datatype Strategy = ByTimestamp | BySize | Manually | Unknown(name: string)

  /** One `FileState`. An empty checksum means none was computed. */
  datatype Record = Record(size: int, modTime: Time, checksum: string, lastSync: Time, syncStatus: string)

  datatype FileEvent = FileEvent(path: Path, timestamp: Time, size: int, checksum: string, modTime: Time)

  datatype Kind = Event | Request | Response | Other(name: string)

  /** `FileSyncMessage`: one struct for all message types; timestamps are whole seconds. */
  datatype Message = Message(kind: Kind, path: Path, data: Content, checksum: string, size: int,
                             timestamp: int, from: Peer)

  datatype File = File(content: Content, modTime: Time)

  /** A file-system notification not yet processed; `removed` for the delete operation. */
  datatype Watch = Watch(path: Path, removed: bool)

  datatype Node = Node(disk: map<Path, File>, records: map<Path, Record>, pending: set<Watch>)

  /** A node after handling something, and the message it published, if any. */
  datatype Reaction = Reaction(node: Node, sent: Option<Message>)

  /** The two node values cannot be told apart at the path, except for times and conflict marks. */
  ghost predicate AlikeAt(path: Path, a: Node, b: Node) {
    && (path in a.disk <==> path in b.disk)
    && (path in a.disk ==> a.disk[path].content == b.disk[path].content)
    && (path in a.records <==> path in b.records)
    && (path in a.records ==>
          a.records[path].checksum == b.records[path].checksum && a.records[path].size == b.records[path].size)
    && (forall removed :: Watch(path, removed) in a.pending <==> Watch(path, removed) in b.pending)
  }

  // ---- Accepting an event ------------------------------------------------

  const WATCHED_PATHS: seq<string> := ["/app/data", "/opt/tomcat/webapps/zenoptics/resources"]

  predicate IsFileInWatchedPaths(path: Path) {
    exists i :: 0 <= i < |WATCHED_PATHS| && WATCHED_PATHS[i] <= path
  }

  predicate ShouldSyncFile(records: map<Path, Record>, event: FileEvent) {
    && IsFileInWatchedPaths(event.path)
    && !(event.path in records && records[event.path].checksum == event.checksum)
  }

  /** The record was written less than five seconds before now. */
  predicate Recent(record: Record, now: Time) {
    record.lastSync > now - 5 * SECOND
  }

  /** Both sides name a checksum, so both name a definite version. */
  predicate Contested(record: Record, event: FileEvent) {
    record.checksum != "" && event.checksum != ""
  }

  predicate HasConflict(records: map<Path, Record>, event: FileEvent, now: Time) {
    event.path in records &&
    var record := records[event.path];
    Recent(record, now) || (Contested(record, event) && record.checksum != event.checksum)
  }

  /** The strategy ranks the announced version strictly above the recorded one. */
  predicate Prefers(strategy: Strategy, record: Record, event: FileEvent) {
    match strategy
    case BySize => event.size > record.size
    case Manually => false
    case ByTimestamp => event.timestamp > record.modTime
    case Unknown(_) => event.timestamp > record.modTime
  }

  /** `resolveManually`: flag the record, creating an empty one when there is none. */
  function MarkConflict(records: map<Path, Record>, path: Path): map<Path, Record> {
    records[path := (if path in records then records[path] else Record(0, ZERO_TIME, "", ZERO_TIME,
        "")).(syncStatus := "conflict")]
  }

  function ResolveConflict(strategy: Strategy, records: map<Path, Record>, event: FileEvent): (map<Path, Record>,
          bool) {
    if strategy.Manually? then (MarkConflict(records, event.path), false)
    else (records, event.path !in records || Prefers(strategy, records[event.path], event))
  }

  /** The records after an event is handled, and whether the file is requested. */
  function HandleFileEvent(strategy: Strategy, records: map<Path, Record>, event: FileEvent, now: Time): (map<Path,
          Record>, bool) {
    if !ShouldSyncFile(records, event) then (records, false)
    else if !HasConflict(records, event, now) then (records, true)
    else ResolveConflict(strategy, records, event)
  }

  // ---- Messages ----------------------------------------------------------

  function EventMessage(self: Peer, event: FileEvent, now: Time): Message {
    Message(Event, event.path, [], event.checksum, event.size, Unix(now), self)
  }

  function RequestMessage(self: Peer, path: Path, now: Time): Message {
    Message(Request, path, [], "", 0, Unix(now), self)
  }

  function ResponseMessage(self: Peer, path: Path, data: Content, now: Time): Message {
    Message(Response, path, data, "", |data|, Unix(now), self)
  }

  function EventOf(msg: Message): FileEvent {
    FileEvent(msg.path, FromUnix(msg.timestamp), msg.size, msg.checksum, ZERO_TIME)
  }

  /** Writing a file, by a user or by the protocol, wakes the watcher. */
  function Write(node: Node, path: Path, content: Content, now: Time): Node {
    node.(disk := node.disk[path := File(content, now)], pending := node.pending + {Watch(path, false)})
  }

  function Remove(node: Node, path: Path): Node {
    node.(disk := node.disk - {path}, pending := node.pending + {Watch(path, true)})
  }

  function RecordOf(event: FileEvent, now: Time): Record {
    Record(event.size, event.modTime, event.checksum, now, "synced")
  }

  function ProcessMessage(self: Peer, strategy: Strategy, node: Node, msg: Message, now: Time): Reaction {
    if msg.from == self then Reaction(node, None)
    else match msg.kind
    case Event =>
      var (records, wanted) := HandleFileEvent(strategy, node.records, EventOf(msg), now);
      Reaction(node.(records := records), if wanted then Some(RequestMessage(self, msg.path, now)) else None)
    case Request =>
      Reaction(node, if msg.path in node.disk
                     then Some(ResponseMessage(self, msg.path, node.disk[msg.path].content, now)) else None)
    case Response => Reaction(Write(node, msg.path, msg.data, now), None)
    case Other(_) => Reaction(node, None)
  }

  /** `PublishFileEvent`: announce the event, then record it as synced. */
  function PublishFileEvent(self: Peer, node: Node, event: FileEvent, now: Time): Reaction {
    Reaction(node.(records := node.records[event.path := RecordOf(event, now)]), Some(EventMessage(self, event, now)))
  }

  /** The event the engine builds: size, modification time and checksum stay empty without a file to stat. */
  function Observe(hash: Hash, disk: map<Path, File>, path: Path, removed: bool, now: Time): FileEvent {
    if !removed && path in disk
    then FileEvent(path, now, |disk[path].content|, hash(disk[path].content), disk[path].modTime)
    else FileEvent(path, now, 0, "", ZERO_TIME)
  }

  /** `processFileEvent`: one pending notification is turned into a published event. */
  function FireWatcher(hash: Hash, self: Peer, node: Node, watch: Watch, now: Time): Reaction {
    PublishFileEvent(self, node.(pending := node.pending - {watch}),
                     Observe(hash, node.disk, watch.path, watch.removed, now), now)
  }

  // ---- Request soundness -------------------------------------------------

  /** The exact condition under which an event leads to a request, while no record of its path is written. */
  lemma RequestExactly(strategy: Strategy, records: map<Path, Record>, event: FileEvent, now: Time)
    ensures HandleFileEvent(strategy, records, event, now).1 <==>
            && IsFileInWatchedPaths(event.path)
            && (event.path in records ==>
                  var record := records[event.path];
                  && record.checksum != event.checksum
                  && (Contested(record, event) || Recent(record, now) ==> Prefers(strategy, record, event)))
  {
  }

  /** Between two definite versions the clock decides nothing; it can matter only against an empty checksum. */
  lemma WindowOnlyForEmptyChecksums(strategy: Strategy, records: map<Path, Record>, event: FileEvent, now: Time,
          later: Time)
    requires HandleFileEvent(strategy, records, event, now).1 != HandleFileEvent(strategy, records, event, later).1
    ensures event.path in records && !Contested(records[event.path], event)
    ensures Recent(records[event.path], now) != Recent(records[event.path], later)
  {
    RequestExactly(strategy, records, event, now);
    RequestExactly(strategy, records, event, later);
  }

  /** Handling an event touches at most the conflict mark of that path, and only in manual mode. */
  lemma EventsLeaveRecords(strategy: Strategy, records: map<Path, Record>, event: FileEvent, now: Time)
    ensures var (after, wanted) := HandleFileEvent(strategy, records, event, now);
            && after.Keys == records.Keys
            && (forall p :: p in records && p != event.path ==> after[p] == records[p])
            && (event.path in records ==>
                  after[event.path] == records[event.path]
                  || (strategy.Manually? && !wanted &&
                      after[event.path] == records[event.path].(syncStatus := "conflict")))
  {
  }

  /**
   While no record of the path is written, manual mode fetches over a recorded version exactly when the
   event names none and the last sync is five seconds old. Module RequestRaces covers the other case.
   */
  lemma ManualOverwritesExactly(records: map<Path, Record>, event: FileEvent, now: Time)
    requires event.path in records && records[event.path].checksum != ""
    ensures HandleFileEvent(Manually, records, event, now).1 <==>
            IsFileInWatchedPaths(event.path) && event.checksum == "" && !Recent(records[event.path], now)
  {
    RequestExactly(Manually, records, event, now);
  }

  /** So the announcement of a delete makes a peer in manual mode ask for the file it already holds. */
  lemma ManualFetchesAfterDelete(hash: Hash, self: Peer, node: Node, records: map<Path, Record>, path: Path, now: Time)
    requires IsFileInWatchedPaths(path)
    requires path in records && records[path].checksum != "" && !Recent(records[path], now)
    ensures var announced := FireWatcher(hash, self, node, Watch(path, true), now).sent;
            announced.Some? && HandleFileEvent(Manually, records, EventOf(announced.value), now).1
  {
    var announced := FireWatcher(hash, self, node, Watch(path, true), now).sent.value;
    ManualOverwritesExactly(records, EventOf(announced), now);
  }

  /** A holder that recorded the older version at some time fetches the newer one when it hears of it. */
  ghost predicate SupersedesAt(strategy: Strategy, older: FileEvent, newer: FileEvent, recorded: Time, heard: Time) {
    && older.path == newer.path
    && Contested(RecordOf(older, recorded), newer)
    && HandleFileEvent(strategy, map[older.path := RecordOf(older, recorded)], newer, heard).1
  }

  ghost predicate Supersedes(strategy: Strategy, older: FileEvent, newer: FileEvent) {
    exists recorded, heard :: SupersedesAt(strategy, older, newer, recorded, heard)
  }

  /** Each version of the chain is one that a holder of the previous version would fetch, at times of its own. */
  ghost predicate AcceptanceChain(strategy: Strategy, chain: seq<FileEvent>) {
    forall i :: 0 <= i < |chain| - 1 ==> Supersedes(strategy, chain[i], chain[i + 1])
  }

  /** Under "size" acceptance climbs strictly, so no chain of fetches returns to a version it left. */
  lemma {:induction false} SizeNeverCycles(chain: seq<FileEvent>, i: nat, j: nat)
    requires i < j < |chain|
    requires AcceptanceChain(BySize, chain)
    ensures chain[i].size < chain[j].size && chain[i] != chain[j]
  {
    var older := chain[j - 1];
    assert Supersedes(BySize, older, chain[j - 1 + 1]);
    var recorded, heard :| SupersedesAt(BySize, older, chain[j], recorded, heard);
    RequestExactly(BySize, map[older.path := RecordOf(older, recorded)], chain[j], heard);
    if i < j - 1 {
      SizeNeverCycles(chain, i, j - 1);
    }
  }
}
