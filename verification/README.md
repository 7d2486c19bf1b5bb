# Syncbox, verified

Syncbox keeps a directory identical on several peers. Each peer stores a *manifest*: four maps from
path to file, directory, symlink and tombstone records, every record carrying a version from a hybrid
logical clock (wall time, counter, author). A *scan* turns what is found on disk into a new manifest, an
*exchange* between two peers merges their manifests last-writer-wins and moves the missing files. This
project models that core and proves what it is for. `dafny verify dfyconfig.toml` checks all of it.

| file | what it models |
|---|---|
| `Bytes.dfy`, `Clock.dfy`, `Manifest.dfy` | byte strings and their order, the clock, manifests and their validation |
| `Merge.dfy`, `Reconcile.dfy` | record selection, the reference merge and its algebra, partial application |
| `Disk.dfy`, `Simulation.dfy`, `DeepOrder.dfy`, `Phases.dfy`, `PhaseSimulation.dfy`, `FileSimulation.dfy`, `Apply.dfy`, `Share.dfy` | the directory tree, the phased application of a remote manifest, and the proof that tree and manifest stay in step |
| `Plan.dfy`, `Exchange.dfy`, `Digest.dfy`, `Sync.dfy`, `Rounds.dfy` | which files to request, one exchange, repeated exchanges, the digest shortcut, the protocol on two shares, once and again and again |
| `Scan.dfy`, `ScanLaws.dfy`, `Rescan.dfy` | the scan, its fast path, and the saves after it |
| `System.dfy`, `Nodes.dfy`, `Gossip.dfy`, `Witnesses.dfy` | N peers with scans, exchanges and crashes between saves: invariants of every run, convergence of all peers, and two runs in which a natural claim fails |
| `Chunks.dfy`, `Lookup.dfy` | chunk framing, sending, receiving and resuming; binary search against linear search |
| `Schedule.dfy`, `Fairness.dfy`, `Wakeups.dfy` | peer schedules, selection of due peers, generations and the snapshot cache under interleaving |
| `Base64.dfy`, `Ticket.dfy`, `Peers.dfy` | share tickets and the list of known peers |
| `Chains.dfy`, `StableSort.dfy` | runs as chains of related states; stable insertion sort by any order |

## Main results

- **Every run.** In every run of N peers that scan, receive any view ever stored by anyone, and crash
  between the clock save and the manifest save, two records with the same version have the same path and
  the same synchronised fields (`System.VersionsIdentifyRecords`). Hence merging is idempotent,
  commutative and associative (`System.RunMergeLaws`), clocks dominate every file, directory and
  tombstone (`System.RunClocks`), and no step lowers such a version (`System.RunNeverLowers`).
- **Phased application.** The application in phases computes the merge except at undelivered files,
  although it uses another comparison (`Apply.PhasesRefineMerge`). On a directory that mirrors the
  manifest it succeeds *if and only if* no winning tombstone lies strictly below a local file or
  symlink, and then the directory mirrors the result (`Apply.PhasesSimulated`,
  `Shares.TransferSucceedsIff`). Such a tombstone does arise: `Witnesses.BlockedRun` is a run of two peers
  that ends in valid manifests of which one can never be applied.
- **Convergence.** One exchange with at most 256 files each way makes both peers equal to the merge, on
  disk and in the manifest (`Sync.SyncWithPeer`). In general exactly the first `256 * k` files in path
  order have arrived after `k` exchanges (`Exchange.RoundsProgress`), and the conditions of a
  synchronisation hold again after it, so two shares that synchronise `k` times all succeed and end equal
  to the original merge once `256 * k` covers the files wanted (`Rounds.SyncRepeatedly`). Among N peers,
  one that has heard from all, however indirectly and in whatever order, holds the merge of all
  (`Gossip.GossipConverges`).
- **False as stated, with the exact condition.** Merging two manifests commutes if and only if live ties
  agree (`Merge.MergeCommutesIff`). The clock does not observe symlink versions, so a scan can lower one;
  it cannot if and only if the first version it would issue is not below any symlink's
  (`ScanLaws.SymlinksSafeIff`). `Witnesses.SymlinkGap` is a run in which a deleted symlink comes back.
- **Fast forms.** The ancestor-skipping hierarchy check, the scan's fast path, the four-slot peer
  selection, the digest shortcut, the batch of known peers and the binary searches equal their plain
  forms.
- **Interleavings.** No retry is lost (`Wakeups.NoLostWakeup`). A peer whose time has come is overtaken
  at most once by each other peer, so at most one start per other known peer precedes its own
  (`Fairness.StartedAtMostOnce`, `Fairness.OvertakenAtMost`).
- **Codecs.** Any division of the files into reads, cut at any byte and resumed any number of times,
  ends in the right files (`Chunks.AttemptsLeavePrefixes`, `Chunks.LastAttemptCompletes`); ticket texts
  and tickets are in bijection (`Tickets.ParseEncoded`, `Tickets.EncodeParsed`).

## Conventions

Text and paths are byte sequences. A view (`Records`) is one map from path to record; `Synced` drops the
modification time, the only field peers may disagree on. Ancestors of a path are its prefixes that end
before a slash. File content is identified by size and SHA-256. Clocks, random jitter, the bytes a read
returns, hash functions and endpoint recognition are parameters or arbitrary choices. Errors are `None`
or `ok == false`.

## Model

| member | source | states |
|---|---|---|
| Clock.OlderTrichotomy | src/types/mod.rs:491-501 | versions are totally ordered by wall time, counter and author |
| Clock.Ticked | src/types/mod.rs:527-543 | a tick strictly raises the clock and fails exactly when the counter is full and wall time has not passed |
| Clock.Observed | src/types/mod.rs:545-568 | observing raises the clock above itself and above the observed version |
| Clock.TickIsLeast | src/types/mod.rs:527-543 | a tick goes to the least time above the clock that is not behind the wall clock |
| Clock.ObservationIsLeast | src/types/mod.rs:545-568 | an observation goes to the least such time that is also above the observed version |
| Clock.ClockState.Tick | src/types/mod.rs:527-543 | the mutable clock follows the pure tick; overflow changes nothing |
| Clock.ClockState.Observe | src/types/mod.rs:545-568 | the mutable clock follows the pure observation; overflow changes nothing |
| Clock.TicksIncrease | src/types/mod.rs:527-543 | successive ticks at one wall-clock reading strictly increase |
| Clock.ObservedAllDominates | src/network/transfer.rs:786-799 | observing a list of versions passes every one of them and never turns the clock back |
| Manifests.CheckAncestors | src/manifest/merge.rs:48-64 | skipping ancestors shared with the previous path decides the same as checking all ancestors |
| Manifests.ValidateHierarchy | src/manifest/merge.rs:36-68 | for any visiting order, accepts exactly when no ancestor of a live path is a file, symlink or tombstone |
| Manifests.NaiveIsHierarchyOk | src/manifest/merge.rs:36-68 | the plain check is the hierarchy property of the view |
| Manifests.Validate | src/manifest/model.rs:52-110 | accepts exactly the manifests with a known format, the right share, at most 100000 disjoint records, valid fields and a sound hierarchy |
| Manifests.ViewDetermines | src/manifest/model.rs:112-123 | disjoint maps are determined by the record at each path |
| Merge.WinsAgreesWithSelect | src/network/transfer.rs:770-784 | the comparison of the application selects the record that the merge selects |
| Merge.CollectMerged | src/manifest/merge.rs:7-34 | the merge loop builds disjoint maps holding the selected record of every path |
| Merge.MergeManifests | src/manifest/merge.rs:7-34 | succeeds exactly when both inputs are valid and the merged view has a sound hierarchy and size, and returns that view |
| Merge.MergeIdempotent | src/manifest/merge.rs:70-83 | merging a view with itself changes nothing |
| Merge.MergeAssociative | src/manifest/merge.rs:70-83 | merging is associative on all views |
| Merge.MergeCommutesIff | src/manifest/merge.rs:76-81 | merging commutes up to modification times if and only if live records with equal versions agree |
| Merge.MergeDoesNotAlwaysCommute | src/manifest/merge.rs:76-81 | two views whose merge depends on the order |
| Merge.MergeIsUpperBound | src/manifest/merge.rs:70-83 | the merge is at least as new as either side at every path |
| Reconcile.AppliedAllIsMerge | src/network/transfer.rs:616-768 | with nothing left out, an application is the merge |
| Reconcile.AppliedAt | src/network/transfer.rs:685-731 | left-out files keep the local record, all other paths hold the merged one |
| Reconcile.PartialHierarchy | src/network/transfer.rs:685-746 | if the merge has a sound hierarchy, so has every partial application |
| Reconcile.PartialParentClosed | src/network/transfer.rs:685-746 | every application with a sound hierarchy keeps parents of live records |
| Reconcile.PartialFields | src/network/transfer.rs:744-746 | every partial application has valid fields |
| Reconcile.PartialSize | src/manifest/model.rs:67-76 | a partial application is never larger than the merge |
| Reconcile.AppliedNeverOlder | src/network/transfer.rs:644-731 | an application never turns a path back to an older version |
| Disks.Disk.PrepareParents | src/network/local.rs:417-535 | the parent walk succeeds exactly when no ancestor is a file or link, creates the missing ones, and changes nothing when it fails |
| Disks.Disk.RemoveLocalPath | src/network/local.rs:359-380 | removes a file, link or empty directory; fails on a non-empty directory or a parent that is no directory |
| Disks.Disk.EnsureLocalDirectory | src/network/local.rs:74-98 | makes the path a directory, replacing a file or link |
| Disks.Disk.Install | src/network/local.rs:222-337 | installs a staged file or a symlink, replacing an empty directory |
| Disks.Disk.SetMode | src/network/local.rs:382-415 | sets permission bits on an existing node of the right kind |
| Disks.InstalledWellFormed | src/network/local.rs:222-337 | installing keeps every parent of a node a directory |
| Simulation.DeletionReady | src/network/transfer.rs:629-652 | with deeper tombstones done, a deletion fails exactly when a local file or symlink sits above it |
| Simulation.CreationReady | src/network/transfer.rs:655-670 | after the deletions every parent of a winning directory is a directory or absent |
| Simulation.ReplacementReady | src/network/transfer.rs:672-712 | a directory to be replaced by a file or link is empty by then |
| DeepOrder.DeepestFirstOrder | src/network/transfer.rs:639-643 | the sort visits every path once, deepest first, later paths first within a depth |
| DeepOrder.FirstAreDeepest | src/network/transfer.rs:639-643 | everything below a path has been visited before it |
| Phases.DeletionPhase | src/network/transfer.rs:644-652 | the loop runs the removals in order and enters the tombstones |
| Phases.DirectoryPhase | src/network/transfer.rs:654-670 | the loop creates directories and enters their records |
| Phases.SymlinkPhase | src/network/transfer.rs:672-683 | the loop installs symlinks and enters their records |
| Phases.FilePhase | src/network/transfer.rs:685-731 | delivered files are installed, unchanged content gets metadata only, the rest stays pending |
| Phases.DirectoryModePhase | src/network/transfer.rs:733-742 | directory modes are set last, deepest first |
| PhaseSimulation.DeletionsSimulated | src/network/transfer.rs:629-652 | the deletion phase succeeds exactly when unblocked, and the tree then mirrors the view with the tombstones |
| PhaseSimulation.CreationsSimulated | src/network/transfer.rs:654-670 | no directory creation fails, and the tree mirrors the view up to directory modes |
| PhaseSimulation.LinksSimulated | src/network/transfer.rs:672-683 | no symlink installation fails, and the tree mirrors the view |
| PhaseSimulation.ModesSimulated | src/network/transfer.rs:733-742 | after the last phase all directory modes agree |
| FileSimulation.FilePrefixReached | src/network/transfer.rs:685-731 | after any number of files the candidate holds the remote record at the files taken and the local one elsewhere |
| FileSimulation.FilePrefixMirrored | src/network/transfer.rs:685-731 | no file step fails, and the tree mirrors the candidate after any number of files |
| Apply.RunPhases | src/network/transfer.rs:616-742 | the five loops compute the phase function, and applied plus pending is the number of winning records |
| Apply.PhasesRefineMerge | src/network/transfer.rs:616-784 | the candidate is the merge except at winning files left out, none of them delivered, and every undelivered wanted file is left out |
| Apply.PhasesSimulated | src/network/transfer.rs:629-742 | on a mirroring directory with a sound merge the phases succeed if and only if no winning tombstone lies strictly below a local file or symlink, leave out exactly the undelivered wanted files, and the directory mirrors the result |
| Apply.WinnersCount | src/network/transfer.rs:755-767 | every winning record is of exactly one kind, so the counts add up |
| Shares.ObserveManifest | src/network/transfer.rs:786-799 | the clock observes all files, directories and tombstones in order, or fails |
| Shares.ObservingDominates | src/network/transfer.rs:786-799 | the observed clock is at least every file, directory and tombstone version |
| Shares.ObservingSucceeds | src/types/mod.rs:545-568 | counters at least 100000 below the maximum never overflow |
| Shares.Share.Store | src/network/transfer.rs:743-754 | validates, observes, then stores clock and manifest, as `Stored` says; an error stores nothing |
| Shares.Share.ApplyRemoteTransfer | src/network/transfer.rs:616-768 | changes the share as `Transferred` says, whose meaning the next rows prove; an error stores nothing, and every parent on disk stays a directory |
| Shares.StoredMeaning | src/network/transfer.rs:743-754 | what is stored is valid and has the view of the candidate; the clock never goes back and dominates a changed view |
| Shares.TransferMeaning | src/network/transfer.rs:616-768 | after a success the manifest is the merge except at the files left out, none of them delivered; applied plus pending is the number of winning records; the clock dominates a changed view |
| Shares.TransferSucceeds | src/network/transfer.rs:616-768 | an unblocked application succeeds, leaves out exactly the undelivered wanted files, and the directory mirrors the manifest |
| Shares.TransferSucceedsIff | src/network/local.rs:494-507 | for a sound merge, a mirroring directory and counters 100000 below the maximum, an application succeeds if and only if no winning tombstone lies strictly below a local file or symlink |
| Plan.PlanMatchesApply | src/network/transfer.rs:49-115 | where equal versions mean equal records, the planner requests exactly the files the application would leave pending, and offers exactly those the peer would |
| Plan.DownloadLoop | src/network/transfer.rs:54-79 | the loop with its early exit keeps the first 256 wanted paths |
| Plan.PlanDownloads | src/network/transfer.rs:49-79 | the requested downloads are the first 256 wanted files in path order |
| Plan.UploadLoop | src/network/transfer.rs:80-104 | the loop counts all wanted uploads and keeps the first 256 |
| Plan.PlanUploads | src/network/transfer.rs:80-104 | the offered uploads are the first 256 in path order, and the pending count is the remainder |
| Plan.MakeTransferRequest | src/network/transfer.rs:49-115 | the request holds both batches and the number of uploads left for later |
| Exchange.OnePath | src/network/client.rs:163-230 | at one path an exchange keeps agreement and the merge, and stops wanting exactly what travelled |
| Exchange.ExchangeProgress | src/network/client.rs:163-230 | an exchange removes exactly the requested files from the wanted ones, on both sides, and keeps the merge |
| Exchange.ExchangeConverges | src/network/incoming.rs:227-260 | with nothing waiting, one exchange makes both sides equal to the merge |
| Exchange.RoundsProgress | src/network/transfer.rs:49-115 | after k exchanges exactly the first 256 * k wanted files in path order have arrived |
| Exchange.RoundsRemaining | src/network/wire.rs:18-18 | the number of files still wanted after k exchanges |
| Exchange.RoundsConverge | src/network/transfer.rs:709-729 | once 256 * k covers both counts, k exchanges make both sides equal to the original merge |
| Digest.StreamIdentifiesState | src/manifest/model.rs:145-215 | two digest pre-images are equal if and only if format, share and all records up to modification times are |
| Digest.ItemFront | src/manifest/model.rs:152-178 | the bytes of one record can be read back from the front of any stream |
| Digest.FeedSection | src/manifest/model.rs:151-158 | one loop feeds the length and the records of a map in key order |
| Digest.FeedDigest | src/manifest/model.rs:145-181 | the fed bytes are the pre-image of the view |
| Digest.EqualStreamsNeedNothing | src/network/incoming.rs:167-188 | with equal pre-images an exchange would request, offer and change nothing |
| Sync.ServeTransfer | src/network/incoming.rs:227-260 | the server applies the client's manifest with the uploads, then offers the requested files that its new manifest holds; an error stores nothing |
| Sync.Meet | src/network/client.rs:163-230 | both halves of a transfer: the server applies what the client offers, the client applies what the server then holds |
| Sync.SyncWithPeer | src/network/client.rs:81-230 | each side ends with the merge except at the files it left out and reports what still waits; under `Exchangeable` it succeeds with the predicted views, both directories mirror them, and with at most 256 files wanted each way both views are the merge; a client that has not finished its first synchronisation offers an empty manifest |
| Sync.RunSync | src/network/client.rs:81-230 | the digest comparison, the request and the transfer change both shares as `Synchronised` says; an error leaves the client's manifest and clock alone |
| Sync.SyncMeaning | src/network/client.rs:81-230 | both sides stay valid, each holds the merge of what it had and received except at the files left out, and no clock goes back |
| Sync.SyncSucceeds | src/network/client.rs:81-230 | under `Exchangeable` both applications succeed, with exactly the views of one exchange, mirrored on disk |
| Sync.OpenAfter | src/network/client.rs:163-230 | after an exchange no tombstone is blocked in either direction |
| Sync.JoinableAfter | src/network/client.rs:163-230 | after an exchange the two views still agree on equal versions and have a sound merge of supported size |
| Sync.UnchangedSucceeds | src/network/client.rs:107-130 | doing nothing on equal digests is the exchange |
| Sync.ServerSucceeds | src/network/incoming.rs:241-243 | the server's application succeeds with the predicted view, and its directory mirrors it |
| Sync.ClientSucceeds | src/network/client.rs:202-204 | so does the client's, on what the server then holds |
| Sync.SmallExchangeConverges | src/network/client.rs:163-230 | with at most 256 files wanted each way one exchange makes both sides equal to the merge |
| Rounds.SyncOnce | src/network/client.rs:31-230 | from a state that is ready a synchronisation succeeds, is an exchange of the views, and leaves a state that is ready again |
| Rounds.HistoryReady | src/network/client.rs:31-230 | a history of synchronisations that starts ready stays ready while counters allow |
| Rounds.HistoryExchanges | src/network/client.rs:163-230 | its views are a run of exchanges |
| Rounds.SyncRepeatedly | src/network/client.rs:31-230 | k synchronisations all succeed, both directories mirror their manifests, and once 256 * k covers the files wanted each way both manifests hold the original merge |
| Scan.RunPass | src/manifest/scan.rs:97-204 | one pass reuses unchanged records, issues a version per change and fails on overflow |
| Scan.ScannedPartial | src/manifest/scan.rs:97-204 | after any visited paths exactly the changed ones among them have ticked, once each |
| Scan.ScannedAll | src/manifest/scan.rs:97-204 | visiting every relevant path gives the scan result |
| Scan.PassTracks | src/manifest/scan.rs:97-204 | the maps under construction follow the fold, or the whole scan overflows the clock |
| ScanLaws.ResultAt | src/manifest/scan.rs:97-204 | per path: live exactly when discovered, vanished paths become tombstones, old tombstones persist, unchanged records keep their versions |
| ScanLaws.ScanPaths | src/manifest/scan.rs:97-204 | live paths are the discovered ones and no path is forgotten |
| ScanLaws.ScanHierarchy | src/manifest/scan.rs:211-220 | a parent-closed discovery gives a manifest that passes the hierarchy check |
| ScanLaws.ScanFields | src/manifest/scan.rs:211-220 | valid discovered fields give valid records |
| ScanLaws.TickedVersion | src/manifest/scan.rs:121-133 | a changed path gets a version of this peer above the old clock and at most the new one |
| ScanLaws.TickedDistinct | src/manifest/scan.rs:121-133 | two paths changed by one scan never share a version |
| ScanLaws.ScanDominates | src/network/state.rs:185-190 | a dominating clock stays dominating |
| ScanLaws.ScanNeverLowers | src/manifest/scan.rs:97-204 | under a dominating clock the version of a file, directory or tombstone never falls and rises where the record changes |
| ScanLaws.SymlinksSafeIff | src/network/transfer.rs:786-799 | whatever a walk discovers no version falls, if and only if the first version the scan would issue is not below any symlink's |
| ScanLaws.AllButWalkable | src/manifest/scan.rs:301-418 | everything recorded except one symlink is something a walk can discover |
| ScanLaws.ZipIffSameTrees | src/manifest/scan.rs:254-299 | comparing the sorted maps side by side is comparing them path by path |
| ScanLaws.FastPathExact | src/manifest/scan.rs:75-85 | the fast path is taken if and only if the format is current and the passes would issue no version and change no record |
| ScanLaws.FastPathRefines | src/manifest/scan.rs:75-85 | where the fast path is taken, the passes give the previous records and no tick |
| Rescan.AllPassesFollow | src/manifest/scan.rs:97-204 | the four passes in a row compute the fold over the whole visiting order |
| Rescan.PassesResult | src/manifest/scan.rs:97-230 | the passes give the scan result, count the changed paths, and fail only if that many ticks overflow |
| Rescan.ScanManifest | src/manifest/scan.rs:64-230 | the result describes the discovered tree; for a walked tree it fails exactly on clock overflow or too many entries |
| Rescan.ScanAndSave | src/network/state.rs:162-198 | clock and manifest are stored as the scan says, a failed scan stores nothing, domination is kept |
| System.GrowthKeepsInv | src/manifest/scan.rs:97-204 | storing records that are known or freshly issued keeps the invariant of all peers |
| System.ScanStepKeepsInv | src/network/state.rs:162-198 | a scan by any peer keeps it |
| System.ReceiveStepKeepsInv | src/network/transfer.rs:616-768 | receiving any view ever stored, with any part of its files, keeps it |
| System.CrashStepKeepsInv | src/network/state.rs:185-190 | a crash between the clock save and the manifest save keeps it |
| System.RunInv | src/network/transfer.rs:743-754 | the invariant holds in every state of every run |
| System.VersionsIdentifyRecords | src/types/mod.rs:527-543 | in every run records with equal versions have equal paths and synchronised fields |
| System.RunMergeLaws | src/manifest/merge.rs:70-83 | in every run stored views are compatible and their merge is idempotent, commutative and associative |
| System.RunClocks | src/network/transfer.rs:743-754 | in every run a clock dominates its peer's files, directories and tombstones, the next tick beats them, and no own version exceeds it |
| System.RunNeverLowers | src/network/transfer.rs:644-731 | no step of any run lowers the version of a file, directory or tombstone or forgets its path |
| System.RunHierarchy | src/manifest/merge.rs:36-68 | every view stored in any run is parent-closed with a sound hierarchy |
| Witnesses.BlockedRun | src/network/local.rs:494-507 | a run of two peers that ends with valid manifests and a sound merge where one peer can never apply the other's manifest, whatever is delivered and whenever |
| Witnesses.SymlinkGap | src/network/transfer.rs:786-799 | a run of two peers in which a scan under a dominating clock gives a deleted symlink a tombstone older than the link, so that merging brings the link back |
| Nodes.ScanStep | src/network/state.rs:162-198 | a scan of a share is a scan step of the system |
| Nodes.ReceiveStep | src/network/transfer.rs:616-768 | an application on a share is a receive step of the system |
| Nodes.WalkIsClosed | src/manifest/scan.rs:301-418 | what a walk of a well-formed tree finds is disjoint and parent-closed |
| Nodes.ScanMirrors | src/manifest/scan.rs:97-204 | after a scan the directory mirrors the manifest |
| Nodes.RunExchangeConverges | src/network/client.rs:163-230 | in every state of every run an exchange with at most 256 files each way makes two peers equal to their merge |
| Nodes.ExchangeIsTwoReceives | src/network/client.rs:163-230 | an exchange is two receive steps of the system |
| Nodes.RunGossips | src/manifest/merge.rs:70-83 | the views of the peers in any state of any run agree on equal versions, as gossip needs |
| Gossip.RoundsMeet | src/network/client.rs:163-230 | enough exchanges of two peers are one meeting of them |
| Gossip.RunInformed | src/manifest/merge.rs:70-83 | in every run of meetings a peer holds, at every path, the newest record of all peers it has heard from |
| Gossip.MergedAllNewest | src/manifest/merge.rs:70-83 | merging views one after the other selects the newest record of them all |
| Gossip.GossipConverges | src/manifest/merge.rs:70-83 | a peer that has heard from all holds the merge of all initial views, in whatever order the peers met |
| Chunks.Pipe.WriteChunk | src/chunk/mod.rs:6-29 | appends one frame, or refuses an empty or oversized payload |
| Chunks.Pipe.ReadChunk | src/chunk/mod.rs:31-59 | takes one frame with the expected index and offset that fits the remaining size |
| Chunks.ChunkRoundTrip | src/chunk/mod.rs:6-59 | a written chunk is read back and nothing after it is consumed |
| Chunks.AcceptedIsFrame | src/chunk/mod.rs:31-59 | whatever is accepted is a frame that a sender could have written |
| Chunks.FileRoundTrip | src/network/transfer.rs:349-365 | however the reads were split, the receiver rebuilds the data and stops at its end |
| Chunks.FileCut | src/network/transfer.rs:489-499 | a stream cut anywhere yields a prefix of the data, all of it if the loop finishes |
| Chunks.SendFile | src/network/transfer.rs:334-365 | the sending loop of one file divides the remaining content into acceptable chunks |
| Chunks.SendFiles | src/network/transfer.rs:300-384 | the stream is such a division of every file; a file of another size stops it |
| Chunks.ReceiveFile | src/network/transfer.rs:489-499 | the receiving loop computes what the stream yields |
| Chunks.ReceiveFiles | src/network/transfer.rs:458-520 | the whole receiver resizes, receives, verifies and stops at the first failure |
| Chunks.AttemptStands | src/network/transfer.rs:458-520 | an attempt on a cut stream leaves prefixes, without error all files are complete, on the whole stream there is no error and exactly the sent bytes are consumed |
| Chunks.AttemptsLeavePrefixes | src/network/transfer.rs:189-212 | any number of cut and resumed attempts leaves prefixes of the contents |
| Chunks.LastAttemptCompletes | src/network/transfer.rs:386-420 | after any such history a whole stream completes every file |
| Lookup.BinarySearch | src/network/transfer.rs:254-262 | on ascending names binary search finds what linear search finds |
| Lookup.FindResume | src/network/transfer.rs:254-262 | both lookups of a resume record agree |
| Lookup.BuildTransferFiles | src/network/transfer.rs:239-275 | invalid requests are refused; otherwise the offers are those of the linear search |
| Schedules.Schedule.AfterAttempt | src/network/scheduling.rs:47-79 | after success the next attempt is 5 seconds away if anything is pending and 30 seconds if not, after a failure 5 to 30 seconds; the peer is not due before, unless the manifest changes |
| Schedules.BackoffDoubles | src/network/scheduling.rs:70-76 | failures double the delay from 5 to 20 seconds, then it is 30 seconds |
| Schedules.SortIsStable | src/network/scheduling.rs:127-158 | the reference sort is sorted and keeps the order within each time |
| Schedules.First4Insert | src/network/scheduling.rs:142-155 | only the first four entries can stay among the first four |
| Schedules.InsertSlot | src/network/scheduling.rs:148-154 | finding a slot, rotating and writing inserts into the sorted four |
| Schedules.SelectDuePeers | src/network/scheduling.rs:127-158 | the selection is: due peers, stably sorted by next time, first four |
| Fairness.PeerSessions.Fill | src/network/peer_sessions.rs:57-75 | without a free session nothing changes; otherwise a fill starts the first selected peers as far as there is room and keeps the schedules of known and active peers |
| Fairness.FillServesWaiting | src/network/peer_sessions.rs:146-159 | a fill that starts a later peer also starts a waiting earlier one |
| Fairness.StartedAtMostOnce | src/network/peer_sessions.rs:57-75 | in every run without retries, while a peer whose time has come waits, no other peer starts twice |
| Fairness.OvertakenAtMost | src/network/peer_sessions.rs:57-75 | while it waits there are at most as many starts as there are other known peers |
| Wakeups.ActiveShare.RetryPeers | src/network/state.rs:66-72 | bumps the network generation and makes every schedule due |
| Wakeups.ActiveShare.RecordPeerAttempt | src/network/state.rs:74-88 | records the attempt, and makes the peer due again if the network generation moved |
| Wakeups.ActiveShare.ManifestSnapshot | src/network/state.rs:90-103 | returns the stored manifest with its digest and caches it |
| Wakeups.ActiveShare.SaveManifest | src/network/state.rs:105-122 | stores and caches, or empties the cache on failure; the generation moves either way |
| Wakeups.RunInv | src/network/state.rs:66-122 | the invariant of generations, sessions, cache and schedules holds in every interleaving |
| Wakeups.NoLostWakeup | src/network/peer_sessions.rs:119-131 | an attempt that read the network generation before a retry leaves its peer due once both have finished |
| Wakeups.CurrentManifestUsed | src/network/client.rs:81-88 | a successful attempt recorded at the current manifest generation used the stored manifest, or was an initial synchronisation, which offers an empty one |
| Wakeups.CacheIsStored | src/network/state.rs:90-122 | a cached snapshot is always the stored manifest with its digest |
| Base64.RoundTrip | src/ticket/mod.rs:104-109 | decoding undoes encoding |
| Tickets.HexOrder | src/ticket/mod.rs:31-31 | sorting peers by printed form is sorting by bytes |
| Tickets.Validate | src/ticket/mod.rs:42-61 | one pass accepts exactly version 1 with at most 64 strictly sorted peers |
| Tickets.LengthBound | src/ticket/mod.rs:83-86 | the text of a ticket has at most 2857 characters, within the limit |
| Tickets.EncodeTicket | src/ticket/mod.rs:63-88 | encodes exactly the valid tickets |
| Tickets.ReadFields | src/ticket/mod.rs:119-164 | reading with a cursor gives the ticket of the content, or refuses it |
| Tickets.ParseTicket | src/ticket/mod.rs:90-165 | accepts what the parsing function accepts |
| Tickets.ParseEncoded | src/ticket/mod.rs:90-165 | parsing the text of a valid ticket gives it back |
| Tickets.EncodeParsed | src/ticket/mod.rs:90-165 | every accepted text is the text of the valid ticket it stands for |
| Peers.SortedUnique | src/types/mod.rs:287-292 | a sorted list is determined by the records of each ID |
| Peers.SortIsStable | src/types/mod.rs:287-292 | sorting by ID keeps the records of each ID in their order |
| Peers.AddedIsSorted | src/types/mod.rs:294-322 | touching and sorting commute |
| Peers.BatchIsFold | src/types/mod.rs:324-347 | a batch sorted once equals adding its peers one by one, for all lists and batches |
| Peers.KnownPeers.TouchUnsorted | src/types/mod.rs:294-322 | touches the first record of the ID or appends one, whichever search was used |
| Peers.KnownPeers.AddOrTouch | src/types/mod.rs:287-292 | adds one peer and sorts after an insertion |
| Peers.KnownPeers.MergeEndpointIds | src/types/mod.rs:324-347 | with or without binary search the result is that of adding one by one |

## Left out

- Endpoints, QUIC streams, discovery, relays, timeouts, authentication and the wire messages around manifests and transfers.
- Hash functions: digests are compared by their pre-image, so hash collisions do not occur in the model; SHA-256 and the ticket checksum are function parameters.
- Whether a version's author is a point on the curve, the cache of such authors, and the format versions of the clock and peer files.
- JSON, file locking, atomic rename and fsync: a save leaves the old or the new value.
- Walking the directory, reuse of digests by modification time and re-hashing: a discovered tree is the input of the scan.
- Windows branches, and copies across devices.
- Temporary changes of parent permissions while writing: the owner can always write; permission bits only appear where the program sets them.
- Paths with repeated slashes or inner dot components name the same file on disk; the tree treats different texts as different paths.
- The scan that follows the first synchronisation of a client, and the flag that records its end: `Sync.SyncWithPeer` takes the flag as a parameter.
- Changes of the directory by others during an application or a transfer: the tree and the sent contents change only by the modelled operations.
- Wrap-around of 64-bit generations and of size counters: they are unbounded here; the 32-bit clock counter and its overflow are modelled.
- Share removal, which discards a peer's clock: the runs of `System` keep every clock.
- `ShareTicket::new`, which sorts peers before validating them; `summarize_peer_outcomes`, status, runtime and connection caches, the CLI and the service files: easy members.
- Disks.Disk.Install: does not model the staged file's own removal or the temporary name used for symlinks, which lie outside the shared directory.
- Sync.SyncWithPeer: states success and convergence only under `Exchangeable`, which is what blocks it otherwise: a blocked tombstone, an unsound merge, a directory that does not mirror its manifest, or counters near overflow; without it, it states what each side merged and left out.
- Rounds.SyncRepeatedly: nobody edits between the synchronisations, and both sides have finished their first one.
- Gossip.GossipConverges: nobody edits during the meetings; `System` covers edits at any time.
- Lookup.BuildTransferFiles: returns the offers by path; the final sort and removal of duplicates is the order of that map.
- Chunks.Pipe.ReadChunk: says nothing about the stream after an error, when the program abandons it.
