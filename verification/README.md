# SyncMesh verification

A Dafny model of the three stateful parts of SyncMesh, with proofs about whole runs:

- **File synchronisation.** Nodes announce file changes, fetch what they lack, and re-announce
  every file they write. Only the checksum filter ends this echo. `FileSync` states what one node
  decides, `Versions` spells that out from sender to receiver, `FileSyncNode` is the running node (a map of shared, mutable `FileState` objects, a disk,
  a watcher) proved to act accordingly, and `Gossip` puts any number of nodes on a network that
  delivers broadcasts in any order, with every goroutine interleaved at its critical sections.
  `RequestRaces`, `Provenance`, `Propagation`, `Settling`, `TwoNode`, `TwoNodeUnopposed`,
  `TwoNodeRaces` and `TwoNodeEcho` prove what such a mesh does; `Work` measures the work left.
- **Cluster management.** `Membership` states each critical section of the manager on values.
  `MemberOperations` spells each operation out member by member, and
  `ClusterManager` is the manager as it runs: merge loops that change `Node` objects which the old
  map still reaches, maps ranged over in arbitrary order, a scan for the lowest identifier. `Merging`,
  `Elections`, `FailureDetector`, `ClusterSystem`, `HeartbeatRound` and `LockOrder` prove what one
  manager, many managers, and many goroutines of one manager do.
- **Publish/subscribe.** `PubSub` is the in-memory service with its bounded subscriber channels,
  `PubSubRuns` one topic whose publishers overlap.

`Prelude` holds optional values, Go's clock and node identifiers (byte strings under Go's order).
`dafny verify dfyconfig.toml` verifies everything.

## What the proofs found

- A larger version can be lost for good under "size" if its holder handles the other node's
  announcement before it has recorded its own: with no record there is no conflict, so it fetches
  the smaller file over the larger. Every silent outcome keeps the larger version exactly if its
  holder has a record or the smaller version is neither announced to it nor about to be
  (`TwoNodeRaces.DisksConvergeExactly`, `TwoNodeRaces.UnpublishedLargeVersionIsLost`).
- A goroutine that has published but not yet recorded can record after a later one, and leave a
  record that names a version the disk no longer holds. Records converge in every silent outcome
  exactly if the node with the smaller version has no publication outstanding
  (`TwoNodeRaces.RecordsConvergeExactly`, `TwoNodeRaces.RecordCanStayStale`).
- Manual mode does fetch over a recorded version. While no record of the path is written, it does so
  exactly when the event carries no checksum and the last sync is at least five seconds old
  (`FileSync.ManualOverwritesExactly`). An announced delete is such an event, so a peer asks for the
  file it already holds (`FileSync.ManualFetchesAfterDelete`).
- A handler reads the records at several moments and requests later still. Meanwhile the node's own
  publications are recorded, so under every strategy a request can go out over a record that does not
  grant it, in manual mode over the node's own version just written
  (`RequestRaces.ManualRequestOverOwnRecord`). `RequestRaces.RequestsAreSoundExactly` gives the exact
  condition on the present record and the outstanding publications; without a record it is that some
  outstanding publication does not grant the request
  (`RequestRaces.RecordlessRequestsAreSoundExactly`).
- Two nodes with the same version and no record of it can fetch it from each other without end. The
  exchange of two versions is bounded exactly if the holder of the larger one has a record
  (`TwoNodeEcho.ExchangeIsBoundedExactly`).
- Last-seen times before the first full second after the Unix epoch are replaced by the receiver's
  clock, so exactly then a relayed time can become newer (`Merging.OneHopKeepsAge`).
- The heartbeat loop and the discovery loop treat a missing self node and non-positive times
  differently, and agree exactly where neither occurs (`Merging.LoopsAgree`).
- An election settles exactly when no active member has the empty identifier, which the heartbeat
  and discovery loops accept (`Elections.ElectionSettles`).
- Calling the election inside `RemoveNode`, instead of starting a goroutine, would block for ever
  (`LockOrder.InlineElectionDeadlocks`).
- Publications hold only a read lock, so two that overlap can reach two subscribers in different
  orders (`PubSubRuns.OverlapReorders`). A publication can overtake an earlier one on its way to a
  subscriber exactly if some publication has yet to come to that subscriber when it starts
  (`PubSubRuns.OvertakenExactlyWhenOwed`).
- The leader mutex is released before a heartbeat's members are merged. If an election installs a
  winner in between, no election is due afterwards exactly if the heartbeat's list vouches for that
  winner (`ClusterSystem.DeliveredHeartbeatSettles`,
  `ClusterSystem.InterruptedDeliveryLeavesElectionDue`).

## Model

| member | source | states |
|---|---|---|
| FileSync.RequestExactly | internal/p2p/file_sync.go:453-479 | while no record of the path is written, an announced file is requested if and only if the path is watched and there is no record of it, or the checksums differ and, in a conflict, the strategy strictly prefers the announced version |
| FileSync.WindowOnlyForEmptyChecksums | internal/p2p/file_sync.go:231-240 | when a change of the clock alone changes the decision, one of the two checksums is empty and the five-second window is what changed |
| FileSync.EventsLeaveRecords | internal/p2p/file_sync.go:303-320 | an event creates and removes no record and alters at most its own path's conflict mark, in manual mode and without a request |
| FileSync.ManualOverwritesExactly | internal/p2p/file_sync.go:222-320 | while no record of the path is written, against a record with a checksum manual mode requests if and only if the path is watched, the event has no checksum and the last sync is at least five seconds old |
| FileSync.ManualFetchesAfterDelete | internal/sync/engine.go:211-224 | the event announced for a delete makes every such manual-mode peer request the file |
| FileSync.SizeNeverCycles | internal/p2p/file_sync.go:282-300 | along any chain of versions each accepted over the previous one under "size", at whatever times, sizes rise strictly, so no version recurs |
| Versions.WatchedPaths | internal/p2p/file_sync.go:599-612 | the watched paths are those under the two named prefixes |
| Versions.RivalsAreDecided | internal/p2p/file_sync.go:261-300 | between a recorded and an announced version, "timestamp" and every unknown strategy request exactly if the announcement is later than the recorded modification time, "size" exactly if it is larger, "manual" never |
| Versions.LaterAnnouncementsWin | internal/p2p/file_sync.go:261-279 | under "timestamp" a later announcement is requested whenever an earlier one is, and none at or before the recorded modification time |
| Versions.ManualMarksExactly | internal/p2p/file_sync.go:303-320 | in manual mode an event marks the record as in conflict exactly if it passes the filter and is not requested, and changes nothing else |
| Versions.AnnouncementTellsTheFile | internal/sync/engine.go:193-233 | a firing at t is received as an event with the file's checksum and size, or none for a missing file, and dated with the whole second of t |
| Versions.UpdateIsFetchedExactly | internal/p2p/file_sync.go:113-122 | from sender to receiver: a peer under "timestamp" with another version modified at m requests the announced file exactly if the whole second of the firing is after m |
| Versions.PublicationIsRecorded | internal/p2p/file_sync.go:373-385 | a publication at t records what the event says, synced at t, and touches no other record, disk or notification |
| Versions.WindowFollowsPublication | internal/p2p/file_sync.go:231-240 | after a publication at t an event without a checksum is requested exactly if it is handled at least five seconds later, or is larger under "size", or later than the recorded modification time under "timestamp" |
| Versions.PublicationMeetsRival | internal/p2p/file_sync.go:237-240 | an event with a checksum is requested against a publication exactly if the checksums differ and size or time prefers it, whenever it is handled |
| Versions.ResponseIsRecorded | internal/p2p/file_sync.go:552-572 | a response written at t and announced at u leaves the data on disk and a record of its checksum, size, modification at t and synchronisation at u |
| Versions.RequestIsAnswered | internal/p2p/file_sync.go:513-549 | a request is answered with the file's content and its length exactly if the file exists, and changes nothing |
| Versions.DeleteIsAnnounced | internal/sync/engine.go:211-224 | a deleted file is gone and only it, is announced and recorded without a checksum, and is no longer given to anyone |
| FileSyncNode.FileSyncProtocol.IsInWatchedPaths | internal/p2p/file_sync.go:599-612 | the loop finds out whether some watched path is a prefix of the file's path |
| FileSyncNode.FileSyncProtocol.ShouldSync | internal/p2p/file_sync.go:575-596 | the filter on the shared map: watched, and not already recorded with this checksum |
| FileSyncNode.FileSyncProtocol.Conflicts | internal/p2p/file_sync.go:222-243 | conflict on the shared map: synced within five seconds, or two different non-empty checksums |
| FileSyncNode.FileSyncProtocol.ResolveManually | internal/p2p/file_sync.go:303-320 | refuses, and marks exactly this path's record, in place, creating an empty record when there was none |
| FileSyncNode.FileSyncProtocol.Resolve | internal/p2p/file_sync.go:246-300 | each strategy's verdict and its effect on the records; unknown strategies count as "timestamp" |
| FileSyncNode.FileSyncProtocol.UpdateFileState | internal/p2p/file_sync.go:373-385 | a fresh record of the event replaces this path's record and no other |
| FileSyncNode.FileSyncProtocol.Publish | internal/p2p/file_sync.go:105-140 | one announcement is appended to the output and the event is recorded as synced |
| FileSyncNode.FileSyncProtocol.HandleEvent | internal/p2p/file_sync.go:453-510 | filter, conflict test, strategy and request on the shared state objects: the records and output of the specification |
| FileSyncNode.FileSyncProtocol.HandleRequest | internal/p2p/file_sync.go:513-549 | answers with the file's current content, and only if the file exists |
| FileSyncNode.FileSyncProtocol.WriteFile | internal/p2p/file_sync.go:335-356 | puts the content on disk and wakes the watcher for this path |
| FileSyncNode.FileSyncProtocol.Process | internal/p2p/file_sync.go:173-219 | delivery of any message, own and unknown ones included, takes the node to the specified state with the specified output |
| FileSyncNode.FileSyncProtocol.ProcessWatch | internal/sync/engine.go:193-233 | a notification becomes an event with size, time and checksum of the file, or with empty ones for a delete or a missing file, which is announced and recorded |
| Gossip.HandlerIsARun | internal/p2p/file_sync.go:173-219 | handling a message in one go is one of the interleavings of its critical sections, with exactly the specified outcome |
| Gossip.FiringIsARun | internal/sync/engine.go:193-233 | so is firing a watcher and recording at once |
| Gossip.ManualSyncIsARun | internal/sync/engine.go:276-300 | a manual synchronisation announces and records the file as a firing watcher would, and leaves notifications alone |
| Gossip.UsersTakeEffect | internal/sync/engine.go:159-190 | an edit or a delete changes one file of one node and wakes its watcher |
| RequestRaces.StepIsSafe | internal/p2p/file_sync.go:463-479 | every interleaved section that keeps responses and users away from the path keeps "no handler of the event can come to its request over a record that does not grant it" |
| RequestRaces.RequestsAreSoundExactly | internal/p2p/file_sync.go:463-479 | with the announcement on its way, some run publishes the request over a record that does not grant it if and only if an outstanding publication of the node writes such a record and the event gets past filter, test and strategy over the records before it or over it |
| RequestRaces.GrantedPublicationsAreSound | internal/p2p/file_sync.go:130-136 | if every outstanding publication grants the request, each run publishes it only over a granting record or over none, whatever the present record says |
| RequestRaces.RecordlessRequestsAreSoundExactly | internal/p2p/file_sync.go:226-229 | without a record that condition is exact, for every strategy |
| RequestRaces.ManualRequestsExactly | internal/p2p/file_sync.go:303-320 | in manual mode and between versions with checksums, a recorded node requests in some run if and only if one of its outstanding publications is of the very version announced and another version passes the filter |
| RequestRaces.ManualRequestOverOwnRecord | internal/p2p/file_sync.go:463-479 | a concrete one: a manual-mode node that has just written the path can request another version over its own record |
| RequestRaces.RequestsAreVetted | internal/p2p/file_sync.go:463-479 | in every run whatsoever, a request is about to go out only if the filter and then the test or the strategy let the event through, each over the record of its moment |
| Provenance.StepIsSourced | internal/p2p/file_sync.go:513-572 | every step keeps: each content on a disk or in a response was written by a user to that path, each response's size is its data's length, and every non-empty checksum describes such a version |
| Provenance.ContentsAreWritten | internal/p2p/file_sync.go:335-356 | the same over every run of any number of nodes and versions |
| Provenance.NoContentFromNowhere | internal/p2p/file_sync.go:513-572 | from a fresh start, whatever stands at a path was on some disk at that path initially or was edited there |
| Work.StepLoad | internal/p2p/file_sync.go:453-596 | a step that handles something about the path strictly lowers the path's load; every other step leaves it unchanged |
| Work.NotQuietMoves | internal/p2p/file_sync.go:173-219 | while anything about the path is under way, some step that handles it is enabled |
| Propagation.StepSpreads | internal/p2p/file_sync.go:453-596 | every step keeps the invariant that a node without the version has it coming, and a node with it has it recorded or about to be |
| Propagation.LackingNodesAreServed | internal/p2p/file_sync.go:453-596 | in every reachable state each node lacking the content has the origin's watcher event pending, an event or response on its way to it, its own request on its way to the origin, or a goroutine about to request |
| Propagation.QuietMeansAgreed | internal/p2p/file_sync.go:574-596 | every reachable state with nothing under way for the path has the same content, checksum and size on every disk and in every record |
| Settling.Finish | internal/p2p/file_sync.go:453-572 | from every reachable state some continuation gives any chosen node the file and its record |
| Settling.HeldRunsAreBounded | internal/p2p/file_sync.go:591-593 | once all nodes hold the file, the echo ends: each run handles the path at most as often as the load allows, for every schedule |
| Settling.AgreementStaysReachable | internal/p2p/file_sync.go:453-596 | whatever has happened, some continuation ends silent and agreed |
| TwoNode.StepCatchesUp | internal/p2p/file_sync.go:282-300 | every step keeps: the smaller side holds the large version or is being brought it, and no stale record can come once both sides have recorded |
| TwoNode.LargeVersionWins | internal/p2p/file_sync.go:282-300 | once the large version is recorded by its holder every silent outcome has it on both disks, and in both records if the other side has no publication outstanding |
| TwoNode.StepSpends | internal/p2p/file_sync.go:453-596 | handling something about the path strictly lowers the budget of the exchange and no step raises it |
| TwoNode.ExchangeIsBounded | internal/p2p/file_sync.go:453-596 | every run from a recorded large version handles the path at most as often as the initial budget, whatever the delivery order and whatever is outstanding |
| TwoNodeEcho.RecordlessRunsAreUnbounded | internal/p2p/file_sync.go:226-229 | without a record at the holder of the large version, for every number some run does at least that much work on the path |
| TwoNodeEcho.ExchangeIsBoundedExactly | internal/p2p/file_sync.go:591-593 | one bound holds for the work of all runs if and only if the holder of the large version has a record of it |
| TwoNode.ExchangeNeverStalls | internal/p2p/file_sync.go:453-596 | no run stops before silence: some step on the path stays enabled |
| TwoNode.OneAnnouncementEach | internal/p2p/file_sync.go:453-596 | with one announcement each way in flight the exchange takes at most 52 steps |
| TwoNodeUnopposed.UnopposedVersionWins | internal/p2p/file_sync.go:226-229 | while the small version is neither announced nor about to be, every silent outcome has the large one on both disks, with or without a record of it |
| TwoNodeRaces.DisksConvergeExactly | internal/p2p/file_sync.go:226-229 | every silent outcome has the large version on both disks if and only if its holder has a record, or the small version is neither announced to it nor about to be |
| TwoNodeRaces.SmallVersionTakesOver | internal/p2p/file_sync.go:226-229 | from every other such start some run ends silent with the small version on both disks and in both records |
| TwoNodeRaces.UnpublishedLargeVersionIsLost | internal/p2p/file_sync.go:226-229 | a concrete one: both nodes have just written the path and published nothing |
| TwoNodeRaces.RecordsConvergeExactly | internal/p2p/file_sync.go:130-136 | with the large version recorded by its holder, every silent outcome has it in the other node's record too if and only if that node has no publication outstanding |
| TwoNodeRaces.StaleRecordFollows | internal/p2p/file_sync.go:130-136 | from every start with such a publication outstanding some run ends silent with a record of the small version |
| TwoNodeRaces.RecordCanStayStale | internal/p2p/file_sync.go:130-136 | a concrete one: silence, the large version on both disks, and a record that names the small one |
| Ids.Trichotomy | internal/cluster/manager.go:690 | Go's string order on identifiers is total |
| Ids.FirstDifferenceDecides | internal/cluster/manager.go:690 | one identifier is below another exactly if at their first difference it has the smaller byte or ends |
| Ids.Transitive | internal/cluster/manager.go:690 | Go's string order on identifiers is transitive |
| Ids.MinIsUnique | internal/cluster/manager.go:688-694 | a set has one least identifier, so the order of the scan cannot matter |
| ClusterManager.Manager.constructor | internal/cluster/manager.go:54-79 | a new manager knows itself, active, and no leader |
| ClusterManager.Manager.Overwrite | internal/cluster/manager.go:939-945 | changing a known node in place, though the old map reaches it too, changes one entry of the new map and keeps its history |
| ClusterManager.Manager.Put | internal/cluster/manager.go:938-969 | a known member is overwritten and kept, an unknown one is created |
| ClusterManager.Manager.ReadEntry | internal/cluster/manager.go:914-969 | an entry without an identifier or about self is skipped, any other is merged with its defaults |
| ClusterManager.Manager.ReadHeartbeat | internal/cluster/manager.go:912-971 | the loop over shared objects yields self plus the last entry of each identifier |
| ClusterManager.Manager.KeepSelf | internal/cluster/manager.go:894-910 | the new map starts from self, created when missing |
| ClusterManager.Manager.UpdateNodesFromHeartbeat | internal/cluster/manager.go:863-973 | leader, leader flag and membership follow the specification, and no object outside the manager becomes a member |
| ClusterManager.Manager.ReadItem | internal/cluster/manager.go:393-453 | a discovered item that is no object, has no identifier or is self is skipped, any other is merged |
| ClusterManager.Manager.ReadItems | internal/cluster/manager.go:391-455 | the discovery loop refines "self if present, plus the last entry of each identifier" |
| ClusterManager.Manager.UpdateClusterMembership | internal/cluster/manager.go:379-459 | the membership follows the specification and leadership is left alone |
| ClusterManager.Manager.Snapshot | internal/cluster/manager.go:579-590 | the heartbeat lists each member exactly once, in whatever order the map is ranged over |
| ClusterManager.Manager.Peers | internal/cluster/manager.go:550-563 | heartbeats go to all members but self, one to each |
| ClusterManager.Manager.TouchSelf | internal/cluster/manager.go:565-570 | sending heartbeats refreshes the manager's own last-seen time only |
| ClusterManager.Manager.Acknowledge | internal/cluster/manager.go:618-625 | an answer makes the peer, if still a member, active and seen now, and changes nobody else |
| ClusterManager.Manager.CheckNodeHealth | internal/cluster/manager.go:634-653 | exactly the active peers silent for more than three timeouts become failed, in any order of the map |
| ClusterManager.Manager.BecomeLeader | internal/cluster/manager.go:704-717 | leadership and the self node's flag are set, other flags stay |
| ClusterManager.Manager.SetLeader | internal/cluster/manager.go:720-733 | leadership is set and every member's flag says whether it is that leader |
| ClusterManager.Manager.GetActiveNodes | internal/cluster/manager.go:755-767 | lists the active members, each once |
| ClusterManager.Manager.ShouldStartElection | internal/cluster/manager.go:656-674 | due when the leader is empty, no member, or failed |
| ClusterManager.Manager.LowestID | internal/cluster/manager.go:688-694 | the running minimum is the least of self and the list |
| ClusterManager.Manager.StartLeaderElection | internal/cluster/manager.go:677-701 | fast path and scan together install the least of self and the active members, for every order of the map |
| ClusterManager.Manager.AddNode | internal/cluster/manager.go:805-817 | the caller's own object becomes a member unless its identifier is taken |
| ClusterManager.Manager.RemoveNode | internal/cluster/manager.go:820-837 | removes a member, and tells that an election is to be started exactly if it was the leader |
| ClusterManager.Manager.UpdateNodeStatus | internal/cluster/manager.go:840-860 | sets status and last-seen of a member and refuses strangers |
| MemberOperations.DiscoveredExactly | internal/cluster/manager.go:379-459 | after a discovery the members are the listed identifiers, and self exactly if it was one; each shows the address, status, flag and time of the last object that names it and keeps its history; leadership stays |
| MemberOperations.HeardExactly | internal/cluster/manager.go:863-973 | the same after a heartbeat, whose sender becomes leader, with self kept or created and non-positive times replaced |
| MemberOperations.CheckedExactly | internal/cluster/manager.go:634-653 | a check fails exactly the active peers silent for more than three timeouts and changes no other field |
| MemberOperations.AcknowledgedExactly | internal/cluster/manager.go:618-625 | an answer sets the peer's status and time and nothing else |
| MemberOperations.SelfTouchedExactly | internal/cluster/manager.go:565-570 | sending heartbeats sets self's time and nothing else |
| MemberOperations.AddedExactly | internal/cluster/manager.go:805-817 | a new member is filed, a present one stays, and nobody else changes |
| MemberOperations.RemovedExactly | internal/cluster/manager.go:820-837 | the removed member is gone and nobody else changes |
| MemberOperations.StatusUpdatedExactly | internal/cluster/manager.go:840-860 | status and time of a member are set and nothing else changes |
| Membership.MergedFind | internal/cluster/manager.go:891-973 | after a merge each identifier is filed as self, as its last entry says, or not at all |
| Membership.MergedStep | internal/cluster/manager.go:912-971 | one more entry changes the member it names and nothing else |
| Merging.SnapshotRoundTrip | internal/cluster/manager.go:579-597 | merging a snapshot leaves the receiver with the sender's members plus itself, each other one equal in address, status, leader flag and whole-second time, with the receiver's own history of those it knew |
| Merging.AnyEnumeration | internal/cluster/manager.go:579-590 | two enumerations of one view merge to the same membership |
| Merging.MergeIgnoresOrder | internal/cluster/manager.go:912-971 | without repeated identifiers any permutation of a list merges to the same membership |
| Merging.MergeIsIdempotent | internal/cluster/manager.go:912-971 | merging a list with timestamps again, at any later time, changes nothing |
| Merging.MergeKeepsKeys | internal/cluster/manager.go:938-969 | every member stays filed under its own identifier |
| Merging.LoopsAgree | internal/cluster/manager.go:379-459 | the two merge loops give the same membership if and only if self is a member and no deciding entry has a time at or before the epoch |
| Merging.RelayCutsOnce | internal/cluster/manager.go:586 | through any number of hops a time from the first full second on is cut to its second once and then stays |
| Merging.RelayedFreshness | internal/cluster/manager.go:929-936 | so it never becomes newer and loses less than a second in all |
| Merging.OneHopKeepsAge | internal/cluster/manager.go:929-936 | a hop does not make a past time newer if and only if it is at least one second after the epoch |
| Elections.FollowedLeaderIsMarked | internal/cluster/manager.go:720-733 | following a leader flags it, if a member, unflags everyone else, and changes no other field |
| Elections.OwnLeadershipIsMarked | internal/cluster/manager.go:704-717 | becoming leader flags self, if a member, and changes nothing else |
| Elections.LowestActiveIsElected | internal/cluster/manager.go:677-701 | whoever is elected is self or a member of status "active", and no such identifier is lower |
| Elections.ElectionInstallsWinner | internal/cluster/manager.go:677-733 | an election makes the winner leader and flags it, nobody else if it is not self; leader flag and leader identifier stay coherent, membership and active set unchanged |
| Elections.SharedViewElectsOne | internal/cluster/manager.go:677-701 | managers with one active set that contains them elect its least identifier, and only that manager considers itself leader |
| Elections.ExactlyOneLeader | internal/cluster/manager.go:677-701 | when every active member takes part, exactly one manager ends as leader and all name it |
| Elections.ElectionSettles | internal/cluster/manager.go:656-701 | after an election the node leads or no election is due, if and only if no active member has the empty identifier |
| Elections.HeartbeatSettles | internal/cluster/manager.go:863-973 | a merged heartbeat that lists its sender as active leaves no election due and no leader flag |
| FailureDetector.DetectorIsExact | internal/cluster/manager.go:634-653 | after any run of answers and checks, with only the checks in order of time, right after a check a peer is active if and only if it was seen within three timeouts, and self keeps its status |
| FailureDetector.LastSeenIsLastHeard | internal/cluster/manager.go:618-625 | last-seen is the time of the peer's latest answer, or its initial time |
| FailureDetector.SelfSeenIsLastTouched | internal/cluster/manager.go:565-570 | self's last-seen is the time it last sent heartbeats, or its initial time |
| FailureDetector.DetectorFollowsAnswers | internal/cluster/manager.go:618-653 | in terms of the history alone: active if and only if the latest answer is at most three timeouts ago |
| ClusterSystem.RunKeepsSane | internal/cluster/manager.go:704-733 | in every interleaving of critical sections each manager considers itself leader if and only if it names itself leader, and files members under their own identifiers |
| ClusterSystem.NoInventedMembers | internal/cluster/manager.go:805-990 | every member and every non-empty leader in any view is an initial node or was once given to AddNode |
| ClusterSystem.RunInventsNothing | internal/cluster/manager.go:574-597 | the same for heartbeats in flight and for goroutines between two critical sections |
| ClusterSystem.RunKeepsSelfActive | internal/cluster/manager.go:634-646 | while nobody removes or re-statuses a manager in its own view, it stays present and active there and every heartbeat in flight lists its sender as active |
| ClusterSystem.DeliveredHeartbeatSettles | internal/cluster/manager.go:863-973 | over such runs, once a heartbeat's members are merged, no election is due if and only if the list vouches for the leader then named, as it does for its sender unless another section changed the leader in between |
| ClusterSystem.InterruptedDeliveryLeavesElectionDue | internal/cluster/manager.go:873-891 | an election that installs an unlisted or failed winner between the two halves of a delivery leaves an election due |
| ClusterSystem.InterruptionIsReachable | internal/cluster/manager.go:677-701 | three steps from two new managers reach a state in which this can happen |
| ClusterSystem.ElectionIsARun | internal/cluster/manager.go:677-733 | an uninterrupted election of the system does what the manager's election does, and nothing else |
| ClusterSystem.AdoptionIsARun | internal/cluster/manager.go:346-349 | nor does adopting the leader that another manager names |
| ClusterSystem.DiscoveryIsARun | internal/cluster/manager.go:366-371 | nor does a discovery whose reply is merged at once |
| ClusterSystem.BootstrapIsARun | internal/cluster/manager.go:131-147 | a node that bootstraps becomes its own leader |
| ClusterSystem.LocalTakesEffect | internal/cluster/manager.go:805-860 | every local operation takes effect at its manager and nowhere else |
| HeartbeatRound.BeatIsAMerge | internal/cluster/manager.go:574-597 | a heartbeat sent, delivered and merged without a step between changes its receiver, by a merge of a snapshot, and nobody else |
| HeartbeatRound.RoundIsARun | internal/cluster/manager.go:550-631 | a round of heartbeats with their answers is a run of the whole system |
| HeartbeatRound.RoundRestoresLeader | internal/cluster/manager.go:574-631 | after a round of heartbeats from a manager that believes it leads, in any order and with any answers, exactly it is leader, all name it, and every other manager has its members and itself, even one that it does not list |
| HeartbeatRound.RoundRestoresMembership | internal/cluster/manager.go:574-631 | all membership key sets end equal to the leader's if and only if the leader's lists every other manager |
| LockOrder.TraceDisciplined | internal/cluster/manager.go:656-890 | every method takes the leader mutex inside the nodes mutex and never the other way, takes neither twice, and releases what it takes |
| LockOrder.SectionsExclude | internal/cluster/manager.go:820-890 | in every interleaving nobody else holds or awaits its turn at a mutex that a goroutine has locked for writing |
| LockOrder.NoDeadlock | internal/cluster/manager.go:820-890 | whatever any number of goroutines have run, while one of them is unfinished some goroutine can step, writer preference included |
| LockOrder.MaximalRunsFinish | internal/cluster/manager.go:656-890 | every run is bounded by the work its goroutines came with, and one that cannot go on has finished every call, spawned ones included, and released every mutex |
| LockOrder.InlineElectionDeadlocks | internal/cluster/manager.go:831-834 | with the election called instead of spawned, the goroutine would block for ever |
| PubSub.MockSubscription.Next | internal/p2p/mock_pubsub.go:90-102 | returns the oldest message, or the caller's or the subscription's end, whichever ready case is picked, and blocks exactly when none is ready |
| PubSub.MockSubscription.Cancel | internal/p2p/mock_pubsub.go:105-107 | ends the subscription and leaves its messages in place |
| PubSub.MockTopic.Publish | internal/p2p/mock_pubsub.go:56-70 | every subscriber is offered the message once, and loses it exactly if its channel is full |
| PubSub.MockTopic.Subscribe | internal/p2p/mock_pubsub.go:73-87 | a new subscriber with an empty channel is appended |
| PubSub.MockTopic.Close | internal/p2p/mock_pubsub.go:110-117 | every subscription is cancelled and none is dropped from the topic |
| PubSub.MockPubSubService.Join | internal/p2p/mock_pubsub.go:38-53 | the first to join a name creates its topic and all later ones share it |
| PubSubRuns.StreamKeepsOrder | internal/p2p/mock_pubsub.go:56-102 | in every run, with overlapping publications too, what a subscriber received and still has waiting is an order-preserving subsequence of what it was offered |
| PubSubRuns.Conservation | internal/p2p/mock_pubsub.go:61-67 | received, waiting and lost messages add up to those offered, and at most ten wait |
| PubSubRuns.OfferedExactly | internal/p2p/mock_pubsub.go:60-87 | a subscriber is offered exactly the publications since it subscribed, but for those yet to come to it |
| PubSubRuns.OfferedOnce | internal/p2p/mock_pubsub.go:61-67 | no publication is offered to a subscriber twice |
| PubSubRuns.PublishedIsAccountedFor | internal/p2p/mock_pubsub.go:56-102 | with no publication under way, received, waiting and lost add up to all published since subscribing |
| PubSubRuns.EarlierIsOfferedFirst | internal/p2p/mock_pubsub.go:57-67 | a publication that was over before another began is offered before it |
| PubSubRuns.SerialStreamFollowsLog | internal/p2p/mock_pubsub.go:56-102 | without overlap a subscriber's stream is a subsequence of the publication log since it subscribed |
| PubSubRuns.OvertakenExactlyWhenOwed | internal/p2p/mock_pubsub.go:57-67 | a publication starting now can be offered to a subscriber before an earlier one if and only if some publication is still owed to that subscriber |
| PubSubRuns.SubscribersDisagreeExactly | internal/p2p/mock_pubsub.go:57-67 | two subscribers can end with opposite orders of an earlier and a later publication if and only if some publication is still owed to one of them |
| PubSubRuns.SubscribersCanDisagree | internal/p2p/mock_pubsub.go:57-67 | if another subscriber has been offered the owed publication already, the two can end with opposite orders |
| PubSubRuns.OverlapReorders | internal/p2p/mock_pubsub.go:57-58 | a concrete run in which two overlapping publications reach two subscribers in different orders |
| PubSubRuns.LossExactlyWhenBehind | internal/p2p/mock_pubsub.go:62-66 | a subscriber loses nothing if and only if it was never more than ten messages behind |
| PubSubRuns.KeepingUpLosesNothing | internal/p2p/mock_pubsub.go:62-66 | such a subscriber gets everything it was offered, in order |
| PubSubRuns.SubscribersAreIndependent | internal/p2p/mock_pubsub.go:61-67 | two runs that differ only in what other subscribers receive and cancel show a subscriber the same messages, losses and channel |
| PubSubRuns.CancelledExactly | internal/p2p/mock_pubsub.go:105-117 | a subscription is cancelled exactly if it was itself cancelled, or the topic was closed with nobody publishing, at some step since it subscribed |
| PubSubRuns.ReceivingTakesOldest | internal/p2p/mock_pubsub.go:90-102 | a message received is the oldest waiting and leaves the channel, cancelled or not |
| PubSubRuns.PublishIsARun | internal/p2p/mock_pubsub.go:56-70 | the steps of an uninterrupted publication do what the method does to every subscriber |

## Left out

- TwoNode.LargeVersionWins: equal sizes, and convergence under "timestamp", which compares a publication time with a modification time, are not covered.
- RequestRaces.RequestsAreSoundExactly: covers the runs up to the first response for the path that reaches the node, since another node's answer brings a version that is none of the node's own; `RequestRaces.RequestsAreVetted` covers all runs, but speaks of the records at the moments of the decisions.
- TwoNodeRaces.DisksConvergeExactly: starts from the two versions facing each other with only announcements and record updates under way for the path, not from the middle of an earlier fetch.
- Propagation.QuietMeansAgreed: speaks of states with nothing under way and of one version; runs need not get there, since two nodes whose records are held back can echo one version for ever; `Settling` proves that getting there stays possible. Several versions on three or more nodes need not converge, since any holder answers a request.
- FileSyncNode.FileSyncProtocol.WriteFile: writing, and reading size, time and checksum of a file, are single steps here; partial writes and input/output errors are not modelled. A write raises one notification per path, however many the operating system reports.
- HeartbeatRound.RoundRestoresLeader: asks that a heartbeat reaches every other manager; one that the leader did not list when its round began is sent none.
- ClusterSystem.DeliveredHeartbeatSettles: between the two halves of a delivery the model lets every other section run, while the source holds the nodes mutex; sections of that mutex are therefore interleaved more freely than they can be.
- Elections.ExactlyOneLeader: says nothing about managers with different views; nothing rules out two leaders then.
- LockOrder.NoDeadlock: covers the two mutexes of the manager, not the lifecycle mutex and not HTTP calls, which are made with no mutex held.
- PubSub.MockTopic: the topic's own message channel is never used in the source and is missing here.
- Messages of the file-sync network are neither lost nor duplicated, although the in-memory service drops messages when a subscriber is ten behind.
- The checksum is an arbitrary function of the content; only the two versions of `TwoNode` are assumed to have different, non-empty checksums.
- The engine's include and exclude patterns and its filter for hidden and temporary files: a watched path is assumed to pass them.
- Version, metadata, operation and error-message fields of events and records, and the setter that stores a caller's own record.
- Deletes and renames across nodes: the operation is not part of the message, so no node deletes on another's behalf.
- JSON: a decoded node is a record of optional fields, and numbers are reals. Conversion of numbers beyond 64 bits is not modelled.
- A critical section reads the clock once here; the source may read it several times within one.
- Discovered node lists name members of the manager that was asked, as of when it was asked; the endpoint that serves them today lists peers of another component (`pkg/api/handler.go:171-192`). The HTTP handler that would call `UpdateNodesFromHeartbeat` is not wired up either; its delivery is modelled as that call.
- Term numbers, consul and etcd modes, start and stop, workers, join requests, metrics, REST and gRPC handlers, the peer-to-peer election in `internal/p2p/cluster.go`.
- Agreement of per-node leader flags with the leader's identifier: becoming leader does not clear the flags of others.
