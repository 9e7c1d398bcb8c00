# Index snapshots, managed service and endpoint ownership

A model of ai-file-search's three protocols that must not go wrong, with proofs.

* **Index snapshots.** Path normalisation, the recursive scan with its exclusions, the last-wins map and the
  ordered merge comparison, the index text with its printer and its streaming loader, publication through an
  exclusive temporary file and a rename, and the operations built on them: the daemon's `refresh` and
  `index_status`, the command line's `index`, `refresh` and `status`. Loops, buffers, stores and the inode-level
  file system are imperative (`method`, `class`) and are proved equal to functions, about which the theorems are.
* **Bounded framing and the managed request loop.** `read_frame` over every way a byte stream can be cut into
  reads, the client's size and newline rule, and the loop that serves connections one after the other.
* **Ownership.** Two state machines with arbitrary interleaving and a kill possible at every step: the endpoint
  binders (lock file, ownership record, socket), and the managed service (startup lock, instance lock, index lock,
  state file, endpoint, child phases, starters, stoppers, status readers, index writers).

`dafny verify dfyconfig.toml` checks everything.

## How the pieces fit

| file | content |
|---|---|
| `Text`, `Utf8` | string order, splitting, `str::lines`, UTF-8 |
| `PathId`, `Records`, `Comparison` | paths, records and their last-wins map, the two comparisons |
| `Metadata`, `SnapshotText`, `LoadedIndex`, `RoundTrip` | metadata escaping, printer and loader, what a text loads as, what survives a save and a load |
| `Scanner`, `ScanTree` | the tree scan and what it does not see; the scan's result, failure and artifact names said about the tree itself |
| `Publication` | file system of names and inodes, `save_with`, `write_state` |
| `SnapshotProtocol`, `SnapshotProgress` | writers, crashes and readers of one index file: safety, and that they get through |
| `Refresh`, `CommandLine`, `RefreshTheorems`, `ScopeTheorems`, `SkippedSave` | the operations, status after refresh, scope over runs, refusals, when an unchanged save may be skipped |
| `BoundedIo`, `ManagedLoop` | frames and the serving loop |
| `UnixEndpoint`, `EndpointProtocol`, `EndpointHistory`, `EndpointRefinement` | one binder with every interruption; any number of binders with foreign actors, and what each must have seen before it binds, records and serves; the runs of a lone binder in the second are exactly the fates of the first |
| `ServiceLifecycle`, `ServiceInvariants`, `ServiceTheorems`, `ServiceAnswers` | the service state machine, what each step keeps, safety over runs, what the answers of start, stop and status mean |
| `ServiceRuns`, `ServiceProgress`, `ServiceReadiness` | stretches of runs; that start, stop, status and a child get done; when readiness is stale |

## Where the code does less than one might expect

* `publish_comparison` may skip the save of an unchanged index. What the skipped save would have written loads as the
  index that is on disk if and only if a root is recorded and every path survives a save
  (`SkippedSave.SkippedSaveOnDiskIff`). An index without a root only gets one from a save
  (`SkippedSave.SkippedSaveLosesRoot`); an index whose last line is unterminated and ends in CR keeps that path as long
  as saves are skipped and loses the CR with the next one (`SkippedSave.SkippedSaveKeepsCr`).
* An index returns from disk as it was saved if and only if no path contains LF or ends in CR
  (`RoundTrip.RoundTripIff`), for all roots and exclusion names. Opening the index, a reader's snapshot and what a
  refresh compares against are the last published snapshot under exactly that condition.
* After an interrupted bind the new socket may stay at the path: after a kill, and after an error that comes before
  the socket's identity has been read, when nothing is there yet to remove it. Later binds then refuse unless the
  complete record was written and the same owner returns. A record write cut short makes every later bind refuse
  (`UnixEndpoint.RecoveryIff`).
* The endpoint guard takes over whatever socket is at the path when it reads the identity after its bind. It is
  the bound socket if and only if nothing foreign touched the path in between (`EndpointProtocol.IsOwn`); otherwise the
  guard may unlink a live socket that is not its own (`EndpointProtocol.ReplacementIsAdopted`, as a run from an empty
  path `EndpointRefinement.AdoptionHappens`).
* A starter's last instance probe only says that somebody has the lock. It is the starter's own child if and only if
  no caller is probing that lock and no other child of the path has it (`ServiceTheorems.ActiveMeansHeldIff`).
  Otherwise a child can be published that served when it was pinged but has released everything since, because of
  a status reader (`ServiceReadiness.ReaderLetsStalePublish`) or because of another child of the path
  (`ServiceReadiness.SecondChildLetsStalePublish`).
* `stop` checks that the state file is still the one it read before it removes it. As long as only the program writes
  state files that check cannot fail: `service state changed during stop` is never reported (`ServiceAnswers.StopMeans`).

## Assumptions

Names, roots and contents are Unicode text. Canonicalisation is an abstract map from paths to identities. Socket
identities and instance ids are never reused, a socket that left the endpoint path does not return, and a socket
without a listener never regains one. The stretch of `finish` from its recheck to its bind, and the check and
unlink of a dropped guard, are atomic against foreign actors. State files are written only by the program. A pid is
not given out again before its process has been waited for. `File::try_lock` excludes, and the kernel frees the
locks and listeners of a dead process.

## Model

| member | source | states |
|---|---|---|
| PathId.FromUserPathJoinsSegments | crates/core/src/path_id.rs:8-17 | the replace/split/filter/join pipeline yields the `/`-joined segment list that a left-to-right reading of the path finds (either slash separates, empty and `.` segments dropped) |
| PathId.SegmentsOfJoin | crates/core/src/path_id.rs:8-17 | reading a joined segment list gives that list back |
| PathId.NormalizedIsFixed | crates/core/src/path_id.rs:8-17 | normalising twice is normalising once |
| PathId.SameKeyIffSameSegments | crates/core/src/path_id.rs:8-17 | two user paths normalise equally if and only if their segment lists are equal |
| PathId.SegmentsAre | crates/core/src/path_id.rs:8-17 | what segments are, for every path: either slash separates, a piece without slashes is one segment, the empty piece and `.` are none |
| Records.MemoryIndexStore.UpsertFile | crates/indexer/src/store.rs:69-72 | the record replaces what its path had, every other path keeps its record |
| Records.MemoryIndexStore.ReplaceAll | crates/indexer/src/store.rs:74-79 | afterwards the store is the last-wins map of the given records, whatever it held |
| Records.FilesByPathKeyed | crates/indexer/src/store.rs:120-125 | the map has exactly the paths of the list, and each path's record is in the list under that path |
| Records.ValuesInOrderAscending | crates/indexer/src/store.rs:90-96 | the values of a map come in strictly ascending path order |
| Records.ValuesInOrderRebuild | crates/indexer/src/store.rs:90-96 | the map can be rebuilt from its values in order |
| Records.LastRecordWins | crates/indexer/src/store.rs:120-125 | a path's record in the map is the last one the list has for it, and a path is in the map if and only if the list has one |
| Utf8.LeqIsByteOrder | crates/indexer/src/scanner.rs:102-106 | the order by characters used for paths is the order of their UTF-8 bytes |
| Utf8.Utf8Iff | crates/daemon/src/bounded_io.rs:113-117 | bytes are accepted as text if and only if they are the encoding of some text |
| Comparison.Compare | crates/indexer/src/store.rs:33-60 | counts exactly the paths added, removed, changed and unchanged between the last-wins maps |
| Comparison.NextLastRecord | crates/indexer/src/comparison.rs:69-79 | takes exactly one run of equal paths off the iterator and returns its last record |
| Comparison.CompareOrdered | crates/indexer/src/comparison.rs:12-61 | for all nondecreasing inputs, duplicate runs included, the merge gives the map comparison's summary and has consumed both iterators to the end |
| Comparison.LastOfRunsSameMap | crates/indexer/src/comparison.rs:9-10 | on a nondecreasing list, keeping the last of each run gives the last-wins map |
| Comparison.CountsPartitionPaths | crates/indexer/src/comparison.rs:22-60 | removed+updated+unchanged is the number of old paths, added+updated+unchanged the number of new ones |
| Comparison.NoChangesIffSameFiles | crates/indexer/src/comparison.rs:63-66 | `has_changes` is false if and only if the last-wins maps are equal |
| Metadata.WriteMetadataRecord | crates/indexer/src/store.rs:570-582 | appends `meta`, key and the escaped value as one line |
| Metadata.UnescapeMetadataValue | crates/indexer/src/store.rs:584-607 | the buffer loop decodes like the recursive definition, unknown and trailing escapes kept |
| Metadata.UnescapeEscape | crates/indexer/src/store.rs:570-607 | decoding an encoded value gives the value, for all values |
| Metadata.EscapeIsFieldSafe | crates/indexer/src/store.rs:570-582 | an encoded value contains no tab, LF or CR |
| Metadata.EscapeIs | crates/indexer/src/store.rs:570-582 | encoding, character by character: backslash, tab, LF and CR become their two-character escapes, any other character stays |
| Metadata.UnescapeIs | crates/indexer/src/store.rs:584-607 | decoding, escape by escape: the four escapes, any other pair and a trailing backslash kept |
| Metadata.DigitsParse | crates/indexer/src/store.rs:609-633 | digits, with leading zeros or one plus sign, parse to their decimal value below 2^64 and to 0 from there on |
| Metadata.OtherTextParsesAsZero | crates/indexer/src/store.rs:609-633 | every other text counts as 0 |
| Metadata.DigitsAreDecimal | crates/indexer/src/store.rs:609-633 | the value of digits is decimal: the last digit counts for itself, what is before it ten times |
| Metadata.ShownIsDecimal | crates/indexer/src/store.rs:404-443 | numbers are printed in decimal without leading zeros |
| Metadata.ParseShown | crates/indexer/src/store.rs:609-633 | every 64-bit number survives printing and parsing |
| SnapshotText.WriteSnapshot | crates/indexer/src/store.rs:404-443 | the writes of `save_with`, in order, spell header, root, policy, sorted exclusions and path-ordered records, each line ended by LF |
| SnapshotText.LineReader.ReadLine | crates/indexer/src/store.rs:202-213 | takes exactly the next line and its terminator off the text |
| SnapshotText.FromReader | crates/indexer/src/store.rs:192-266 | the streaming loop with its flags equals a fold of the line rule over `str::lines` of the whole text, rejection included |
| LoadedIndex.HeadedTextMeans | crates/indexer/src/store.rs:192-266 | what a text with a header loads as, record by record: rejected if and only if a policy record is not version 1 or comes twice, an exclusion has no name, or exclusions come without a policy; else the last root, the policy and its decoded exclusions, and the last-wins map of the record lines; unknown metadata and empty lines are skipped |
| LoadedIndex.LegacyTextMeans | crates/indexer/src/store.rs:214-223 | a text without a header loads every nonempty line as a path with size and time 0, the first line included, with no root and no policy |
| LoadedIndex.LineMeans | crates/indexer/src/store.rs:224-262 | what one line below the header does, by what it starts with |
| LoadedIndex.RecordFields | crates/indexer/src/store.rs:609-634 | a record line is size, time and path in this order; the path keeps its tabs; missing fields count as 0 and as the empty path |
| LoadedIndex.RenderingSpelled | crates/indexer/src/store.rs:404-443 | the text of a save, spelled out |
| RoundTrip.ParseRendered | crates/indexer/src/store.rs:192-266 | for LF-free paths a saved index loads with its root and policy, and its files after CR stripping and renormalisation |
| RoundTrip.RoundTripIff | crates/indexer/src/store.rs:404-443 | loading what was saved gives the same index if and only if every path is LF-free and does not end in CR |
| RoundTrip.CrPathIsLost | crates/indexer/src/store.rs:207-213 | any path ending in CR makes the reloaded files differ |
| RoundTrip.LoadedPathsAreLfFree | crates/indexer/src/store.rs:192-266 | no path of any loaded index contains LF |
| RoundTrip.PolicyRecordCommutes | crates/indexer/src/store.rs:224-243 | after the header, a policy record and any other line can swap places |
| RoundTrip.PolicyOrderDoesNotMatter | crates/indexer/src/store.rs:192-266 | swapping a policy record with a neighbour anywhere after the header leaves the loaded index, or its rejection, unchanged |
| Scanner.ScanDirectory | crates/indexer/src/scanner.rs:111-142 | the recursion appends exactly the kept files of the subtree, or fails if and only if it meets an unreadable directory |
| Scanner.Scan | crates/indexer/src/scanner.rs:94-109 | walk followed by a stable sort by path |
| Scanner.SortedIsSorted | crates/indexer/src/scanner.rs:102-106 | the sort orders by path and permutes |
| Scanner.SortedSameMap | crates/indexer/src/scanner.rs:102-106 | stability: sorting keeps the last-wins map |
| Scanner.ScanIsExact | crates/indexer/src/scanner.rs:94-143 | the result is in nondecreasing path order and is, as a multiset, the regular files with no excluded directory on the way and outside the artifact set |
| ScanTree.ScanContains | crates/indexer/src/scanner.rs:111-142 | a record is in the result if and only if a component path of the tree, below no excluded name and not excluded itself, leads to a regular file of the record's size and modification time, and the record's path has the segments of the joined components |
| ScanTree.ScanIsOneEach | crates/indexer/src/scanner.rs:94-143 | with no name twice in a directory the result is, up to order, exactly one record for each such component path |
| ScanTree.ScanFailsIff | crates/indexer/src/scanner.rs:111-131 | a scan fails if and only if the root is no readable directory or a component path without excluded names leads to an unreadable one |
| Scanner.ArtifactsAreInvisible | crates/indexer/src/scanner.rs:175-185 | adding or removing a file whose path the artifacts exclude, anywhere in the tree, leaves the scan result unchanged |
| Scanner.OwnNamesAreExcluded | crates/indexer/src/scanner.rs:187-205 | the index, its lock, every name `temporary_index_path` can yield, every runtime file and every name its temporaries can have are excluded |
| ScanTree.ExcludesIff | crates/indexer/src/scanner.rs:175-205 | which names the artifact set hides, and no others: the index, its `.lock`, the runtime files, and in their directories the names that start with `.`, their name and `.aifs-tmp-` |
| ScanTree.TemporaryNamesDiffer | crates/indexer/src/store.rs:636-646 | another process id or counter gives another temporary name |
| ScanTree.StateNamesDiffer | crates/daemon/src/service.rs:184-237 | and another process id, time or sequence number another temporary of a state file |
| ScanTree.PutArrives | crates/indexer/src/scanner.rs:111-142 | in the tree model, a file put where its directory is there is what its path leads to |
| ScanTree.PutLeavesOthers | crates/indexer/src/scanner.rs:111-142 | and every other file stays what and where it was |
| ScanTree.RemoveIs | crates/indexer/src/scanner.rs:111-142 | removing a file removes it and leaves every other file what and where it was |
| Publication.FileSystem.CreateNew | crates/indexer/src/store.rs:517-535 | exclusive creation: succeeds only on a name that is not taken and then adds one empty file under it |
| Publication.CreateTemporary | crates/indexer/src/store.rs:511-547 | takes the first candidate the environment allows, stops after at most 32 attempts, and changes nothing when it gives up |
| Publication.CreationTakesFirstFree | crates/indexer/src/store.rs:515-546 | creation passes over taken names only, and without create errors succeeds if and only if one of the names is free |
| Publication.CreationDecides | crates/indexer/src/store.rs:515-546 | the first attempt whose name is free, or that fails otherwise than by a collision, decides, and how |
| Publication.CreationExhausted | crates/indexer/src/store.rs:536-546 | creation gives up as already existing if every attempt collides |
| Publication.SaveWith | crates/indexer/src/store.rs:404-443 | for every failure point and every set of colliding names: success puts the whole rendering under the destination and changes no other name, failure leaves every name as it was except possibly the attempt's own temporary; no existing inode is written |
| Publication.SaveSucceedsIff | crates/indexer/src/store.rs:404-443 | a save succeeds if and only if nothing fails after creation, the destination is no directory, and one of 32 names is free and can be created, all before it being taken |
| Publication.UnpublishedKeepsFiles | crates/indexer/src/store.rs:453-464 | after a failed save every file is still there, and a newcomer can only be the attempt's own temporary whose removal failed |
| Publication.StateWriter.Write | crates/daemon/src/service.rs:153-169 | a buffer is written whole if its bytes fit the remaining allowance and refused whole otherwise |
| Publication.WriteChunks | crates/daemon/src/service.rs:128-141 | succeeds only if all buffers and the newline are at most 64 KiB of bytes together, and then the file holds exactly them |
| Publication.WriteState | crates/daemon/src/service.rs:119-146 | the guarantees of `SaveWith` for the state file, including the 64 KiB bound in bytes and a parent directory that cannot be created |
| Publication.StateWriteSucceedsIff | crates/daemon/src/service.rs:119-237 | a state file is written if and only if its directory can be there, it is no directory, its text with the newline is at most 65536 bytes, nothing fails after creation, and one of 32 names is free and can be created, all before it being taken |
| SnapshotProtocol.StepKeepsInv | crates/indexer/src/writer_lock.rs:22-79 | every step of writers, readers and kills keeps: one writer, published inodes complete and never written again, temporaries private, what a refresh loaded still in place |
| SnapshotProtocol.RunGrows | crates/indexer/src/store.rs:404-443 | over any stretch of a run published contents never change and the history of published snapshots only grows |
| SnapshotProtocol.ReadersSeeOneSnapshot | crates/indexer/src/store.rs:183-190 | whatever happens meanwhile, a reader that read its handle to the end holds byte for byte the snapshot in place when it opened, and parses to it if and only if its paths are printable |
| SnapshotProtocol.OpenLoadsLastPublished | crates/indexer/src/store.rs:183-190 | at any instant opening the index loads the last published snapshot if and only if its paths are LF-free and do not end in CR |
| SnapshotProtocol.SummaryIsTheDifference | crates/daemon/src/lib.rs:1183-1232 | a publishing refresh reports the difference between the index as it would have been loaded immediately before and the snapshot it publishes; what was loaded is the snapshot published immediately before if and only if that one's paths are printable |
| SnapshotProtocol.OneWriter | crates/indexer/src/writer_lock.rs:22-79 | at most one process is between acquiring and releasing the writer lock |
| SnapshotProgress.RefreshGetsThrough | crates/daemon/src/lib.rs:1183-1232 | from any state in which nobody writes and the index loads, a refresh by itself publishes its candidate whole and reports the difference to what it loaded |
| SnapshotProgress.RebuildGetsThrough | crates/cli/src/lib.rs:289-339 | a rebuild gets there without a readable index |
| SnapshotProgress.ReaderGetsAll | crates/indexer/src/store.rs:183-190 | from any reachable state a reader by itself gets the whole of the last published snapshot |
| SnapshotProgress.LeavingFreesWriterLock | crates/indexer/src/writer_lock.rs:22-79 | killed or released anywhere, a writer frees the writer lock and leaves what is in place |
| Refresh.CompareWithScan | crates/daemon/src/lib.rs:1113-1113 | merging the stored values with a sorted scan gives the difference of the maps |
| Refresh.ScanAndCompareStore | crates/daemon/src/lib.rs:1101-1119 | root, then options, then scan, then comparison, with their errors in that order |
| Refresh.PublishComparison | crates/daemon/src/lib.rs:1121-1139 | saves root and files unless skipping is asked for and nothing changed; a failed save leaves the index as it was |
| Refresh.RefreshIndex | crates/daemon/src/lib.rs:1183-1232 | the index text and the report after a refresh, for every outcome; stored and requested roots that differ are refused with nothing changed |
| Refresh.IndexStatus | crates/daemon/src/lib.rs:1151-1181 | the report `refresh` would give, with nothing written; stored and requested roots that differ are refused |
| Refresh.LoadedIsKeyed | crates/indexer/src/store.rs:192-266 | every record of a loaded index is stored under its own path |
| Refresh.ScannedIsValid | crates/daemon/src/lib.rs:1101-1119 | what a scan makes of an index satisfies what the save and load theorems ask for |
| ScopeTheorems.RefusalsIff | crates/daemon/src/lib.rs:1234-1259 | when `refresh` refuses, each reason if and only if: a stored and a requested root whose canonical forms differ, or that differ as text when one does not resolve; neither root; a stored policy other than the one asked for; `index_status` refuses for the same reason and otherwise reports the same |
| ScopeTheorems.FirstRefresh | crates/daemon/src/lib.rs:1183-1259 | an index that is not there is the empty one: the first refresh takes root and exclusions from its request, reports every path as added, and stores no policy; without a root it refuses |
| ScopeTheorems.OnlySavesChangeIndex | crates/daemon/src/lib.rs:1121-1181 | no status and no operation that does not get to save changes the index text |
| ScopeTheorems.RefreshPublishesTree | crates/daemon/src/lib.rs:1101-1139 | a refresh that goes through records the stored root or else the requested one, keeps the policy, publishes exactly the kept files of that tree under the stored exclusions or else the requested ones, and reports the number scanned and the difference to what was stored |
| ScopeTheorems.CliRefusalsIff | crates/cli/src/lib.rs:404-491 | the command line's refusals, each if and only if: exclusions first; with a policy a missing stored root, then roots that do not resolve to the same path; without one the given root is taken |
| ScopeTheorems.CliRefreshPublishesTree | crates/cli/src/lib.rs:404-474 | a refresh from the command line publishes the tree of that scope, records its root and keeps the policy |
| CommandLine.Index | crates/cli/src/lib.rs:289-339 | the rebuild publishes canonical root, given exclusions and the scan, or leaves the index as it was; after a success with LF-free paths, opening the index gives the given exclusions as policy and the canonical root |
| ScopeTheorems.IndexSetsScope | crates/cli/src/lib.rs:311-334 | after a successful `index` with LF-free paths, whatever was there before, opening the index gives the given exclusions, the canonical root, and only records of regular files of that tree below no excluded directory, a final CR of a path lost; with printable paths exactly all of them |
| ScopeTheorems.LaterScansUseIndexScope | crates/indexer/src/store.rs:284-295 | every later scan until the next `index` uses the exclusions given to this one |
| CommandLine.RefreshFiles | crates/cli/src/lib.rs:404-474 | options, root, scan, comparison, save; the index changes only if it succeeds, and the report is the difference to the index before |
| CommandLine.Status | crates/cli/src/lib.rs:341-402 | reports what `refresh` would, and fails if and only if scope, loading or scan fails |
| CommandLine.ReportIsOfTree | crates/cli/src/lib.rs:289-474 | the number reported is the number of files scanned; the summary of a refresh is the difference between the files loaded and those it publishes, and a status reports the same |
| RefreshTheorems.StatusAfterRefresh | crates/daemon/src/lib.rs:1101-1181 | after a successful refresh with printable paths, a status that resolves to the same scope and scans to the same last-wins map reports zero added, updated and removed |
| RefreshTheorems.OwnEditsAreInvisible | crates/indexer/src/scanner.rs:94-205 | any number of creations and removals of the program's own files leave the scan result unchanged |
| RefreshTheorems.OwnFilesInsideRoot | crates/daemon/src/lib.rs:1101-1119 | index, lock, temporaries and state files may lie inside the scanned root: edits of them leave the next scan's map as it was |
| RefreshTheorems.ReorderedDirectories | crates/indexer/src/scanner.rs:94-109 | with distinct paths, listing directories in another order gives the same scan |
| RefreshTheorems.QuietAfterRefresh | crates/daemon/src/lib.rs:1101-1232 | end to end: after a successful refresh with printable paths, any creations and removals of the program's own files inside the root and, with distinct paths, any reordering of directories, the same request, or one that leaves the scope to a stored policy, reports zero added, updated and removed |
| SkippedSave.SkippedSaveIffRootRecorded | crates/daemon/src/lib.rs:1133-1137 | in memory: with nothing changed, the snapshot a save would write is the loaded one if and only if a root is recorded, and differs in the root only |
| SkippedSave.SkippedSaveLosesRoot | crates/daemon/src/lib.rs:1133-1137 | a concrete unchanged index without a root for which skipping and saving differ |
| SkippedSave.SkippedSaveOnDiskIff | crates/daemon/src/lib.rs:1133-1137 | on disk: with nothing changed, loading after the skipped save would have given what is loaded now if and only if a root is recorded and every path is printable |
| SkippedSave.SkippedSaveKeepsCr | crates/indexer/src/store.rs:207-213 | a concrete unchanged index with a root, whose unterminated last line ends in CR, for which skipping and saving differ |
| RefreshTheorems.SameRequestSameScope | crates/daemon/src/lib.rs:1234-1252 | repeating the request after its refresh resolves to the same root and exclusions |
| RefreshTheorems.OmittedRequestSameScope | crates/indexer/src/store.rs:284-295 | so does a request that leaves root and exclusions out, when a policy is stored |
| RefreshTheorems.RpcRefreshPublishes | crates/daemon/src/lib.rs:1183-1232 | the operation of the run theorems is the daemon's refresh |
| RefreshTheorems.PublishedFilesAreInScope | crates/indexer/src/scanner.rs:111-142 | whatever operation publishes, its files are exactly the kept files of the scanned tree: each record has size and time of a regular file that its component path leads to, below no excluded directory, and is not one of the program's own; and no such file's path is missing |
| RefreshTheorems.PolicyStaysStep | crates/indexer/src/store.rs:284-295 | an operation other than `index` keeps a known policy and scans with it |
| RefreshTheorems.RootStaysStep | crates/daemon/src/lib.rs:1234-1252 | a daemon operation keeps the stored root |
| RefreshTheorems.RootIsFixedOverRuns | crates/daemon/src/lib.rs:1234-1252 | over every run of daemon operations with LF-free paths a stored root never changes, with or without a policy |
| RefreshTheorems.PolicyIsFixedOverRuns | crates/indexer/src/store.rs:284-295 | over every run without `index`, with LF-free paths, a known policy never changes and every scan uses it |
| RefreshTheorems.ScopeIsFixedOverRuns | crates/cli/src/lib.rs:404-491 | over every run without `index`, with LF-free paths: a known policy never changes and every scan uses it, and, policy or not, under daemon operations a stored root never changes |
| BoundedIo.Stream.Read | crates/daemon/src/bounded_io.rs:98-99 | a read with a nonzero limit returns a nonempty next piece of the stream of the environment's choosing; after the last byte an end of stream, or an error if the connection is severed |
| BoundedIo.ReadFrame | crates/daemon/src/bounded_io.rs:87-126 | however the stream is cut: the bytes through the first LF if it lies within the limit and they are UTF-8, else the specified error, or a timeout; a read error exactly when the connection breaks before the frame is decided; never a zero-length read, never more than the limit held |
| BoundedIo.FrameIff | crates/daemon/src/bounded_io.rs:87-126 | a frame is the shortest prefix ending in LF, if it is within the limit and UTF-8 |
| BoundedIo.FrameErrors | crates/daemon/src/bounded_io.rs:102-124 | without one: end of stream if nothing came, invalid data if there is no LF within the limit or the line is no text |
| BoundedIo.ReadFailsIff | crates/daemon/src/bounded_io.rs:98-110 | a broken connection shows if and only if fewer bytes than the limit and no LF had come; the limit of requests is 65536 bytes |
| BoundedIo.CompleteFramesAreReceived | crates/daemon/src/bounded_io.rs:112-117 | a connection that breaks after a complete frame makes no difference, and one that breaks before it yields none |
| BoundedIo.ClientBytesAreOneLine | crates/daemon/src/bounded_io.rs:53-73 | what the client accepts to send fits the limit and ends in LF |
| BoundedIo.ClientAcceptsIff | crates/daemon/src/bounded_io.rs:53-66 | the client refuses a request if and only if its one line, LF included, is longer than 65536 bytes |
| BoundedIo.LineIsFrame | crates/daemon/src/bounded_io.rs:87-126 | a line within the limit arrives whole whatever follows it |
| BoundedIo.AcceptedRequestsArrive | crates/daemon/src/bounded_io.rs:53-126 | every accepted request without an inner newline arrives unchanged |
| BoundedIo.InnerNewlineCutsRequest | crates/daemon/src/bounded_io.rs:53-126 | a request with an inner newline arrives cut at it |
| ManagedLoop.Service.HandleConnection | crates/daemon/src/lib.rs:833-875 | by what the first complete frame parses to: a ping is answered with the identity, a shutdown aimed at another instance with a mismatch, and neither stops or changes anything; an untargeted or rightly aimed shutdown gives `ShutdownRequested` whether or not the reply can be written; another request acts once; any frame that does not stop fails if its reply cannot be written |
| ManagedLoop.Service.Serve | crates/daemon/src/lib.rs:918-938 | the loop over the accepts gives the state, the outcome and the replies that the sequence of first frames determines |
| ManagedLoop.ShutsDownIff | crates/daemon/src/lib.rs:852-875 | the loop ends with a shutdown if and only if some first frame before a lasting accept error parses as a shutdown that is untargeted or names the serving identity, and otherwise with a failed accept if and only if there is one |
| ManagedLoop.MistargetedShutdownIsRefused | crates/daemon/src/lib.rs:852-863 | a connection with a shutdown aimed at another instance, anywhere among the others, leaves state and outcome as if it were absent, and is answered with the mismatch |
| ManagedLoop.PingIsAnswered | crates/daemon/src/lib.rs:845-851 | a ping is answered with the serving identity and neither changes nor ends anything |
| ManagedLoop.RequestActsInTurn | crates/daemon/src/lib.rs:864-867 | any other request acts exactly once, before all later ones, and gets its own answer |
| ManagedLoop.OnlyFirstFramesMatter | crates/daemon/src/lib.rs:833-938 | two accept sequences with the same first frames and lasting errors have the same effect and outcome |
| ManagedLoop.FirstFrameIff | crates/daemon/src/lib.rs:842-842 | the frame a connection is judged by: its first line, if it comes in time, is at most 65536 bytes with its LF, and is text |
| ManagedLoop.SilentConnectionsStutter | crates/daemon/src/lib.rs:842-842 | a connection without a complete valid frame can be inserted anywhere without changing effect or outcome |
| UnixEndpoint.Endpoint.Prepare | crates/daemon/src/unix_endpoint.rs:323-353 | accepts if and only if the lock is free, the record readable, and the path empty or holding the very socket the record names for this owner |
| UnixEndpoint.Endpoint.Finish | crates/daemon/src/unix_endpoint.rs:366-405 | refuses without change unless record and path are as prepared; completes with a fresh recorded socket; or leaves what a kill or an error at each point leaves, an error before the identity is read leaving the socket behind |
| UnixEndpoint.Endpoint.Bind | crates/daemon/src/unix_endpoint.rs:436-448 | from every state: a fresh recorded socket, or a refusal with endpoint and record unchanged, or an interruption; which of them, exactly |
| UnixEndpoint.Endpoint.DropGuard | crates/daemon/src/unix_endpoint.rs:468-476 | removes the socket only if the path still holds the one bound and the removal goes through, and releases the lock |
| UnixEndpoint.Endpoint.Close | crates/daemon/src/unix_endpoint.rs:427-434 | the listener goes first, then the guard; the record stays |
| UnixEndpoint.RecoveryIff | crates/daemon/src/unix_endpoint.rs:366-404 | for every point and every kind of interruption, exactly when the next bind goes ahead: with the new socket left, if and only if its complete record was written and the same owner returns; with it removed, if and only if the record was not left cut |
| EndpointProtocol.StepKeepsInv | crates/daemon/src/unix_endpoint.rs:246-476 | every cooperating or foreign step keeps: the lock is held exactly by the binder past `open_lock`, sockets are older than the next identity, a rechecked path stays empty |
| EndpointProtocol.OneBinder | crates/daemon/src/unix_endpoint.rs:246-270 | in every run at most one binder is between `prepare` and drop |
| EndpointProtocol.LockFileIsPermanent | crates/daemon/src/unix_endpoint.rs:427-434 | in every run the lock file, once there, is never unlinked or replaced |
| EndpointProtocol.EveryUnlinkIsJustified | crates/daemon/src/unix_endpoint.rs:373-383 | in every run every cooperating unlink removes, under the lock, either a socket that refused the probe and has no listener, named with this owner by the record both when prepared and at the recheck, or the socket the guard identified after its own bind, which is the bound one if and only if no foreign event touched the path in between |
| EndpointHistory.BindIsCleared | crates/daemon/src/unix_endpoint.rs:323-386 | nobody binds on less than this, under the lock: the path was empty when looked at and again right before, or it held a socket that refused the connection and that the record named for this owner, again right before |
| EndpointHistory.RecordIsOfVerified | crates/daemon/src/unix_endpoint.rs:398-402 | the record is emptied or written only after the socket it is to name was seen at the path, with the lock file in place |
| EndpointHistory.ServingIsConfirmed | crates/daemon/src/unix_endpoint.rs:398-404 | a binder serves only after it wrote the whole record of its socket for its owner and then saw that socket at the path once more |
| EndpointProtocol.ReplacementIsAdopted | crates/daemon/src/unix_endpoint.rs:387-396 | from any state right after a bind, a foreign socket placed before the identity is read is unlinked by the guard although it is live |
| EndpointProtocol.SocketHistory | crates/daemon/src/unix_endpoint.rs:373-383 | over any stretch of a run a socket found at the path was there all along, and a dead one stays dead |
| EndpointProtocol.KillFreesLock | crates/daemon/src/unix_endpoint.rs:246-270 | when the holder is killed anyone who has the lock file open can take the lock |
| EndpointRefinement.SoloBind | crates/daemon/src/unix_endpoint.rs:322-405 | wherever binding may go ahead, every fate (completion, kill or error at each point) is a run of a lone binder that ends in exactly the namespace the sequential `bind` specifies |
| EndpointRefinement.SoloRefused | crates/daemon/src/unix_endpoint.rs:323-364 | and where it may not, the protocol stops it at `prepare` or at the probe, with endpoint and record unchanged |
| EndpointRefinement.LoneBinderEndings | crates/daemon/src/unix_endpoint.rs:322-476 | conversely, every run of a lone binder: once it serves the namespace is the bound one, and once it is gone the namespace is as it was or, if binding may go ahead, what one of those fates leaves |
| EndpointRefinement.AdoptionHappens | crates/daemon/src/unix_endpoint.rs:387-396 | a run from an empty path whose last step unlinks a live socket that is not the binder's own |
| ServiceInvariants.StepKeepsInv | crates/daemon/src/lib.rs:162-831 | every step of every process keeps: each lock held exactly by the process whose guard is alive, children past `serve_managed_ipc` hold the instance lock until they are over, pids unique until reaped, state files name children that served, and what each caller knows where it is |
| ServiceInvariants.FreeInstanceMeansEnded | crates/daemon/src/service_ownership.rs:106-118 | a probe that gets the instance lock proves every child of the path that entered `serve_managed_ipc` over: inactive is never wrong |
| ServiceInvariants.AnswerIsOwnChild | crates/daemon/src/lib.rs:585-594 | whoever answers a starter's ping with the spawned pid is the spawned child, although pids are reused |
| ServiceInvariants.OneCoordinator | crates/daemon/src/service_ownership.rs:19-26 | two coordinators of one state path are the same process |
| ServiceTheorems.AtMostOneServing | crates/daemon/src/lib.rs:767-831 | in every run at most one child serves a state path and at most one an index |
| ServiceTheorems.ServingExcludesWriters | crates/daemon/src/lib.rs:779-785 | while a child serves an index no other process, another child included, holds its writer lock |
| ServiceTheorems.FreeInstanceLock | crates/daemon/src/lib.rs:814-823 | when the instance lock is free, or only probed, every child of the path that entered `serve_managed_ipc` has closed its endpoint and released both locks, for good |
| ServiceTheorems.InstanceLockGoesLast | crates/daemon/src/lib.rs:817-821 | short of being killed, a child that has served gives up its instance lock only when it neither listens nor has its index lock any more |
| ServiceTheorems.KillFreesAll | crates/daemon/src/service_ownership.rs:52-72 | a kill at any step frees all locks of the process at once |
| ServiceTheorems.PublishedIsOwnServingChild | crates/daemon/src/lib.rs:558-616 | every published state is the identity of the child that starter spawned, which was serving under instance lock, index lock and endpoint when pinged and was alive at the last look; at the probe in between it held the instance lock if and only if nobody else did |
| ServiceTheorems.ActiveMeansHeldIff | crates/daemon/src/service_ownership.rs:106-118 | when a probe finds the instance lock taken, a given child has it if and only if no caller of the path is probing it and no other child of the path is where it holds it |
| ServiceReadiness.ReadinessMayBeStale | crates/daemon/src/lib.rs:595-606 | from any state with a status reader about to probe, a starter past its ping can publish a child that has released everything |
| ServiceReadiness.ReaderLetsStalePublish | crates/daemon/src/lib.rs:595-606 | a run from the start, with one status reader, that publishes a child that has released everything |
| ServiceReadiness.SecondChildLetsStalePublish | crates/daemon/src/lib.rs:595-606 | a run from the start with no other caller at all that does so, because another child of the path has taken the locks |
| ServiceTheorems.OtherOutcomesLeaveNothing | crates/daemon/src/lib.rs:558-636 | any other outcome of a surviving starter after its spawn: the child it spawned is dead and reaped, holds nothing, and the state file is as it was when coordination began |
| ServiceTheorems.FileChangeIsCoordinated | crates/daemon/src/service.rs:253-269 | a state file changes only by the publish or removal of the process that holds its startup lock |
| ServiceTheorems.FileFixedSinceCoordination | crates/daemon/src/lib.rs:190-215 | from taking the startup lock on, a starter or stopper sees the state file unchanged by anyone |
| ServiceTheorems.RemovalIsSafe | crates/daemon/src/lib.rs:216-282 | a state file is removed only if it is the one found under the startup lock and names a child of that path that has stopped listening and released both locks |
| ServiceTheorems.RunningIsServing | crates/daemon/src/lib.rs:162-184 | `running` is reported only at an instant when the child the file names, a child of this very state path, is serving and holds its locks and endpoint |
| ServiceTheorems.StaleIsOver | crates/daemon/src/lib.rs:179-181 | `stale` is reported only of a child that is over and holds nothing |
| ServiceAnswers.StoppedMeansGone | crates/daemon/src/lib.rs:186-282 | when `stop` answers `stopped` there is no state file, and the service that the file named when the startup lock was taken is over and holds nothing |
| ServiceAnswers.RemovalSequence | crates/daemon/src/lib.rs:222-260 | no removal on less than this, in order: the recorded service answered as itself and was sent the shutdown, then its instance lock was free, then its index lock, then nobody listened; or, for a stale file, its instance lock was free and then nobody listened |
| ServiceAnswers.StopMeans | crates/daemon/src/lib.rs:186-282 | what each answer of `stop` says about the startup lock, the state file and the instance lock; that the file changed under it is never reported |
| ServiceAnswers.StartMeans | crates/daemon/src/lib.rs:292-354 | what each answer of a `start` that spawns nothing says: `running` or a mismatch only of the recorded service that answers as itself, and which of them by index, endpoint and interval |
| ServiceAnswers.SpawnIsCleared | crates/daemon/src/lib.rs:318-365 | a start spawns only after it read the file, found the instance lock free, then the index lock, and when the recorded service, if any, is over and holds nothing |
| ServiceAnswers.StatusMeans | crates/daemon/src/lib.rs:162-184 | the answer of `status` from what its looks found, in order: state file, startup lock, instance lock, endpoint |
| ServiceProgress.StopShutsDown | crates/daemon/src/lib.rs:186-282 | from any state in which the recorded service answers as itself, a run of the stopper and that child passes through the shutdown request and ends with the child finished, the file removed and `stopped` |
| ServiceProgress.StopRemovesStale | crates/daemon/src/lib.rs:222-225 | from any state with a stale file an undisturbed `stop` removes it and answers `stopped` |
| ServiceProgress.StopperGivesUp | crates/daemon/src/lib.rs:226-264 | a stopper whose service will not go can answer unresponsive, with the file and the service as they are |
| ServiceProgress.StopAnswers | crates/daemon/src/lib.rs:186-222 | and its answer in every other state |
| ServiceProgress.StartServes | crates/daemon/src/lib.rs:292-616 | from any state in which nothing stands in the way, a run of the starter and its child ends with the child serving and the state file naming it |
| ServiceProgress.StartAnswers | crates/daemon/src/lib.rs:292-345 | the answer of an undisturbed `start` in every state in which it may not spawn |
| ServiceProgress.StarterReaps | crates/daemon/src/lib.rs:623-636 | wherever a starter is after its spawn, it can get rid of the child by itself |
| ServiceProgress.StarterRetries | crates/daemon/src/lib.rs:566-622 | a starter whose ping or instance probe came too early can look again, with nothing changed |
| ServiceProgress.OthersAnswerIsPassedOver | crates/daemon/src/lib.rs:585-594 | another service answering at the endpoint is never taken for the spawned child, and the starter goes on waiting |
| ServiceProgress.StarterPublishes | crates/daemon/src/lib.rs:566-616 | whenever the waiting starter's child serves, the starter by itself can publish it |
| ServiceProgress.WriterWrites | crates/indexer/src/writer_lock.rs:22-79 | an index writer that finds the writer lock free has it while it writes and gives it back |
| ServiceProgress.StatusAnswers | crates/daemon/src/lib.rs:162-184 | the answer of an undisturbed `status` as a table over the state it finds |
| ServiceProgress.ChildWindsDown | crates/daemon/src/lib.rs:767-831 | wherever it is, a child can end by itself, endpoint, index lock and instance lock given up in this order, and nobody can be in its way |

## Left out

- Publication.SaveWith: file contents are text; a failing write leaves an arbitrary prefix, and loss of power after a successful call is not modelled.
- SnapshotText.FromReader: read errors of the underlying file (including invalid UTF-8) are not modelled; the text is a string of Unicode scalar values.
- Scanner.Scan: errors of single entries (file type, metadata) and of symbolic links' targets are not modelled; a directory is readable or not.
- ManagedLoop.Service.Serve: the effect of a request and the decoding of a frame are parameters; JSON and the request catalogue are not part of this model.
- BoundedIo.ReadFrame: the clock is a counter that may elapse at either check; a timeout in the middle of a read is the same outcome. All read errors are one error.
- UnixEndpoint.Endpoint.Finish: permission, owner, link-count and parent-directory checks appear only as errors at the point where they are made; record version and uid as an unreadable record.
- EndpointProtocol.EveryUnlinkIsJustified: the owner hash is opaque, so the statement is about hashes and not about state paths.
- ServiceLifecycle.Apply: `service_start`, `service_stop`, `inspect_service`, `wait_for_started_service`, `wait_for_service_shutdown` and `service_run` are steps of a state machine and not methods, because other processes act between any two of their calls. An endpoint is reachable or not, as `EndpointProtocol` justifies; the unlink of the socket path after the listener closed is not a separate step, and unreadable state files appear as a failing call.
- ServiceTheorems.OtherOutcomesLeaveNothing: killing and waiting for the child are taken to succeed, as their errors are ignored by the code.
- Canonicalisation of index, root and state paths (`resolve_index_path`, `resolve_state_path`): paths are taken to be resolved.
- Windows pipes, security identifiers and case-insensitive names: foreign calls.
- Argument parsing, text and JSON rendering, search, statistics, benchmarks, fixtures: they neither persist anything nor take part in ownership.
- The legacy manual `ipc` command and the stdio loop: no ownership protocol.
- Automatic refresh scheduling: described in the documentation, not part of the code.
