# Verified model of the embedded TiKV launcher

This project models the parts of the Go package `embeddedtikv` that decide whether a test run leaves
anything behind: the registry of running clusters and the orphan sweep, the watchdogs that act when
the test binary dies, the life cycle of one cluster handle, and four smaller algorithms they lean on
(configuration nesting, port reservation, version order, the binary cache).

`dafny verify dfyconfig.toml` checks everything.

| file | what it models |
|---|---|
| `Registry.dfy` | the shared vocabulary: ids, inodes, records, processes |
| `Protocol.dfy` | owners and sweepers as a transition system, one file-system call per step, any number of both, deaths anywhere |
| `Safety.dfy` | the invariant every step of it keeps |
| `LiveClusters.dfy` | what that means for clusters whose owner is alive |
| `Counterexamples.dfy` | runs of the protocol in which a promise of the comments fails |
| `Sweep.dfy` | `CleanOrphans` as loops over mutable fields, proved equal to a closed form |
| `SweepLaws.dfy` | that closed form entry by entry, and idempotence |
| `Recovery.dfy` | an undisturbed sweep applied to any state a run of the protocol can reach |
| `EntryCalls.dfy` | where a sweeper of the protocol that works alone is at each call for one entry |
| `Refinement.dfy` | every sweep of such a sweeper ends as `Sweep.dfy` says |
| `Watchdog.dfy` | N servers with N watchdogs sharing a directory and a record |
| `Lifecycle.dfy` | `Start`, `Stop`, `startOnce`, `teardown`, `stop` and `standDown` over heap objects |
| `CommandLine.dfy` | how a sweep recognises the processes of a cluster |
| `Toml.dfy` | `nestConfig` over heap tables |
| `Ports.dfy`, `Versions.dfy` | port reservations, version order |
| `Download.dfy`, `BinaryCache.dfy` | one download, and many processes resolving the same version |
| `Strings.dfy`, `Wrappers.dfy` | splitting, joining and comparing strings; optional values and results |

## Where the code and its comments differ

The model follows the code.

- registry.go:91-93 says that neither a record nor a data directory is ever visible without a held
  lock behind it. A third pass that probed the new lock file before its owner locked it unlinks the
  path after the record is published (`Counterexamples.RecordWithoutLock`). What holds instead, and
  still protects live clusters, is `LiveClusters.ProbeNeverFindsLive`; the comment holds exactly in the
  runs without such a late unlink (`LiveClusters.HeldLockBehindEverything`). If the owner later dies
  without a watchdog (`Counterexamples.OrphanWithoutLock`), its record has no lock and no sweep ever
  removes it (`Recovery.StuckForever`); without watchdogs that is the only way crash recovery fails
  (`Recovery.OrphanRecovery`).
- registry.go:207-210 says that a sweep leaves live clusters alone. That is proved for owners and
  sweepers that share a registry (`LiveClusters.SharedRegistryIntact`), but for one thing: a dead
  cluster's record may list a pid that now runs a live cluster's server, and name a caller's directory
  that the server's command line also names, such as the directory above its own; that server is
  killed (`Counterexamples.ServerLostToRecycledPid`), and no other is
  (`LiveClusters.SharedRegistryStep`). It cannot happen to a cluster none of whose servers names a
  directory that some cluster of the run is given (`LiveClusters.EveryServerSurvives`). A sweep of another registry moreover removes the directory of a
  live cluster once it finds it old and then finds no process that references it
  (`Counterexamples.ForeignDirectoryLost`), and only then (`LiveClusters.ExposedExactly`).
- registry.go:212-218 has three passes so that every way to be abandoned is covered. One is not: when a
  watchdog has removed record and lock and is killed while a sibling server still runs, the server and
  its directory are beyond every sweep until the server exits, another watchdog steps in, or the
  server is killed for a caller's directory (`Counterexamples.ServerBeyondRecovery`,
  `Recovery.OccupiedForever`).
- process.go:130-134 says that `stop` stands the watchdog down first. The call is deferred, so it
  runs last, after the server has exited or the wait for it has run out. The proofs about watchdogs
  use that order.
- embedded_tikv.go:135-142: when only the first `save` of a record fails, `openRecord` returns the
  record along with the error and `startOnce` drops it. Nothing releases that lock: it stays held
  until the runtime happens to collect the file or the process exits, and the lock file stays behind
  (`Lifecycle.Cluster.Start` counts these locks exactly).
- registry.go:418-419 says that every path passed to a server is a child of the data directory. The
  watchdog shell's own command line also names the directory bare, followed by a space and the path
  of the record. It therefore references one more directory, whose id is its own followed by a space
  and whatever the record path has before its first separator (`CommandLine.WatchdogMatchesExactly`).
  Ids made by `os.CreateTemp` are decimal, so none is of that form.

## Model

| member | source | states |
|---|---|---|
| `LiveClusters.SharedRegistryIntact` | registry.go:94-124 | In every run of any number of owners and sweepers that share a registry, a live cluster's published record is the one it last saved, its directory exists, and of the servers it started that did not exit by themselves exactly those run that were not killed for a caller's directory |
| `LiveClusters.SharedRegistryStep` | registry.go:207-213 | In such runs no single step of a sweeper changes a live cluster's record, its owner's hold on its lock, or its directory, and it kills a server exactly if it is a kill for a dead record that lists the pid and names the binary and a caller's directory the server also names |
| `LiveClusters.EveryServerSurvives` | registry.go:286-290 | In such runs every server a live cluster started that did not exit by itself runs, if none of that cluster's servers names on its command line a caller's directory that some cluster of the run is given |
| `LiveClusters.LiveClusterIsIntact` | registry.go:94-124 | The same for sweepers of any registries: the record always; directory and servers unless a sweep of another registry found the directory old and later unused |
| `LiveClusters.NoSweepStepHarmsLive` | registry.go:260-392 | The same step by step |
| `LiveClusters.StrayedExactly` | registry.go:286-290 | A server is marked as killed for a caller's directory exactly at such a kill |
| `LiveClusters.ExposedExactly` | registry.go:341-353 | A cluster is marked as found unused exactly when a sweeper that saw its directory old finds no process that references it while the owner lives; that sweeper is one of another registry |
| `Counterexamples.ServerLostToRecycledPid` | registry.go:286-290 | A run in which a sweep kills a server of a live cluster of the same registry, recorded under a pid that was recycled |
| `Counterexamples.ForeignDirectoryLost` | registry.go:341-359 | A run in which a sweep of another registry removes a live cluster's directory |
| `LiveClusters.ProbeNeverFindsLive` | lock.go:20-57 | While an owner holds its lock, its lock path names that very inode or nothing, and nothing exactly after a late unlink; a probe that does not create the file therefore obtains no lock standing for a live owner |
| `LiveClusters.HeldLockBehindEverything` | registry.go:91-93 | At the end of any run a live cluster has a lock held by its owner behind its path, if and only if no third pass of the run unlinked the path after the owner had opened it |
| `LiveClusters.UnlinkedExactly` | registry.go:380-390 | The mark of such an unlink is set in a run exactly if it contains one |
| `Counterexamples.RecordWithoutLock` | registry.go:380-390 | A run exists in which a live cluster's record is published and its lock path is gone |
| `LiveClusters.ForeignClusterSurvives` | registry.go:27-35 | A live cluster is never found unused by a sweep of another registry, and keeps its directory, if from the first time the directory is older than the grace period some process always references it |
| `Safety.StepKeeps` | registry.go:238-392 | Every step of owners, sweepers, servers and watchdogs keeps the invariant: lock path and inode agree, records name only their own directory, a sweeper past the lock has a dead owner before it |
| `Safety.RunKeeps` | registry.go:86-198 | The same over whole runs |
| `Safety.Victim` | registry.go:286-297 | Whoever a sweeper kills for a library directory belongs to a cluster whose owner is gone, or that a foreign sweep found old and unused |
| `Counterexamples.OrphanWithoutLock` | registry.go:380-390 | A run that ends with a dead owner whose record has no lock path and is stuck, in the sense of `Recovery.StuckForever` |
| `Counterexamples.ServerBeyondRecovery` | watchdog.go:39-46 | A run with two servers after which a sweep with the directory old leaves the server whose sibling's watchdog removed record and lock, and its directory is occupied in the sense of `Recovery.OccupiedForever` |
| `Recovery.CrashRecovery` | registry.go:207-218 | In every state that meets the invariant and in which nobody is in the middle of a sweep, a sweep with the directory old leaves no record, lock, directory or process of a dead owner, whatever watchdogs did, if and only if its record has its lock path, or without a record either lock path and directory are both there or no process keeps the directory in use |
| `Recovery.OrphanRecovery` | registry.go:207-218 | Where no watchdog cleaned up: if and only if no record stands without a lock path, which takes a late unlink |
| `Recovery.KilledAtAnyStep` | embedded_tikv.go:134-180 | An owner with a library directory killed at any step of any run: whatever follows but watchdogs, a sweep that starts with no other under way and the directory old leaves nothing, under the same condition |
| `Recovery.StuckForever` | registry.go:263-267 | A dead owner's record without a lock path is removed in no run by any sweep |
| `Recovery.OccupiedForever` | registry.go:335-359 | While a server runs in the directory of a dead owner without record and lock path, and no sweeper has gone so far as to reclaim it, no run of any sweeps takes server or directory, but for an exit of the server, a watchdog of that cluster, or a kill for a caller's directory |
| `Recovery.SeenIsOrderly` | registry.go:413-422 | In every reachable state no process names two library directories and every record names only its own, as the exact effect of a sweep requires |
| `Refinement.SweepAlone` | registry.go:219-236 | From any point of any run at which nobody is in the middle of a sweep, every sweep that a sweeper then runs alone, one call at a time, each pass taking up once what it listed when it started, in any order, leaves exactly the world `CleanOrphans` is proved to leave |
| `Refinement.SweepExists` | registry.go:219-236 | From every such point there is such a sweep |
| `Refinement.OrphanIsReclaimed` | registry.go:207-218 | Every such sweep leaves nothing of a dead owner whose directory is old, if and only if what it found is recoverable |
| `Refinement.StepWithin` | registry.go:238-392 | Wherever a sweeper working alone is with an entry, its next kill or call keeps to the course of that entry, or ends it with the closed form of one entry more |
| `EntryCalls.Advance1` | registry.go:260-307 | Every call for a record leads on along its course, or ends with files and processes as the record's reclaiming leaves them if its lock was free, and untouched otherwise |
| `EntryCalls.Advance2` | registry.go:324-359 | Every call for a directory likewise, reclaiming it exactly if it was stranded when taken up |
| `EntryCalls.Advance3` | registry.go:378-390 | Every call for a lock likewise, unlinking it exactly if it was free and had no record |
| `EntryCalls.KillGoesOn` | registry.go:286-297 | Every kill for an entry takes exactly the process it should and keeps to the course |
| `EntryCalls.Reclaim1` | registry.go:260-307 | What the calls for one record end with is the closed form of one record |
| `EntryCalls.Reclaim2` | registry.go:324-359 | What the calls for one directory end with is the closed form of one directory |
| `EntryCalls.Reclaim3` | registry.go:378-390 | What the calls for one lock end with is the closed form of one lock |
| `Sweep.Machine.CleanOrphans` | registry.go:219-236 | The three loops leave exactly the records and locks of the closed form, in whatever order entries are taken; and the whole state and count of it, where no process names two library directories |
| `Sweep.Machine.SweepRecords` | registry.go:238-257 | Pass 1 equals its closed form and counts the reclaimed records |
| `Sweep.Machine.ReclaimRecord` | registry.go:260-307 | One record: untouched unless its lock can be taken; then record and lock go, and what an intact record names is killed and removed |
| `Sweep.Machine.SweepDataDirectories` | registry.go:311-363 | Pass 2 equals its closed form: its locks always, everything where no process names two library directories |
| `Sweep.Machine.ReclaimDirectory` | registry.go:324-359 | One directory: reclaimed exactly if it is stranded |
| `Sweep.Machine.SweepStaleLocks` | registry.go:367-392 | Pass 3 equals its closed form |
| `Sweep.Machine.TryLock` | lock.go:26-57 | A probe obtains a lock exactly if the path exists and nobody holds its inode, and creates nothing |
| `Sweep.Machine.KillProcessesUsing` | registry.go:448-462 | Exactly the processes other than the sweeper that name a library directory die |
| `SweepLaws.RecordsAndLocks` | registry.go:260-274 | A record survives a sweep exactly if its lock is missing or held, a lock exactly if it is held, both unchanged |
| `SweepLaws.FirstPass` | registry.go:260-307 | The first pass takes exactly the records whose lock is there and free, with their locks, the directories that the intact ones among them own, and the processes they list or whose library directory they own |
| `SweepLaws.Directories` | registry.go:330-359 | A library directory survives, unchanged, exactly if no dead intact record owns it, and its record survives, or its lock is held, or it has no lock after the first pass and has changed within five minutes or is named by a process the first pass spares |
| `SweepLaws.CallerDirectories` | registry.go:299-305 | Any other directory is removed exactly if a record with its lock there and free parses, claims to own its directory and names this one |
| `SweepLaws.Processes` | registry.go:286-297 | A process survives exactly if no dead intact record lists it under a positive pid with a binary and a directory on its command line, or owns a library directory it names, and it names no directory the second pass removes, unless it is the sweeping one |
| `SweepLaws.Counts` | registry.go:219-236 | A sweep counts the dead intact records and the directories of the second pass |
| `SweepLaws.LiveClusterUntouched` | registry.go:207-210 | Record, lock and directory of a cluster whose lock is held survive; of the processes that name its directory exactly those survive that no dead record lists for a caller's directory |
| `SweepLaws.ForeignDirectory` | registry.go:341-353 | A directory this registry knows nothing of survives exactly while it has changed within five minutes or is in use; it is in use exactly by the processes that name it and that no dead record lists for a caller's directory |
| `SweepLaws.SweepIsIdempotent` | registry.go:219-236 | A second undisturbed sweep at the same time changes nothing and counts nothing |
| `Watchdog.FiringMeansParentDeath` | watchdog.go:39-46 | A watchdog passes its end-of-file branch only if the parent died without standing it down |
| `Watchdog.SharedStateSurvivesStops` | process.go:130-134 | No stop, exit or signal costs the sibling servers their directory, record or lock while the parent lives |
| `Watchdog.AllFinishedLeavesNothing` | watchdog.go:103-107 | In whatever order they ran, once all watchdogs have finished every server is dead and the owned directory, the record and the lock are gone, even if running servers re-created files in between |
| `Watchdog.CanFinish` | watchdog.go:16-23 | After the death of a parent that stood nobody down, nothing blocks any watchdog |
| `Watchdog.CallerDirectorySurvives` | embedded_tikv.go:253-259 | A caller's directory is never removed by a watchdog |
| `Watchdog.KillComesFirst` | watchdog.go:103-105 | A watchdog that has come to the directory has killed its server |
| `Watchdog.DirectoryGoesBeforeRecord` | watchdog.go:103-105 | A watchdog that removes the record leaves an owned directory behind only to a sibling whose own watchdog has yet to remove it; a single server never leaves one |
| `Watchdog.NoRecordWithoutLock` | watchdog.go:42-43 | At no point of any run does the record stand without its lock |
| `Watchdog.RecordGoneMeansOneServerDead` | watchdog.go:40-43 | A record removed by a watchdog means that watchdog's server is dead |
| `Watchdog.RecordGoneWhileSiblingRuns` | watchdog.go:40-43 | It does not mean that all servers are: a run with two servers |
| `Lifecycle.Cluster.Start` | embedded_tikv.go:88-132 | It fails for the number of stores exactly if that is below one; else it succeeds exactly if the binaries are there and in one of its at most three attempts nothing goes wrong, each but the last lost to a port conflict; on success record and servers agree in order; on failure the handle holds no process and no record, every spawned process has been through `stop`, a server whose `stop` failed belongs to an attempt whose published record is kept with its lock released, and one lock is leaked for each attempt that could not publish its first record |
| `Lifecycle.Cluster.StartOnce` | embedded_tikv.go:134-180 | It asks for the same things in the same order, twelve and three for each store, up to the first that goes wrong, which decides where and how it fails; however it returns, every process it spawned is in the handle under its own name and the record lists them in order |
| `Lifecycle.AttemptDecided` | embedded_tikv.go:134-180 | So an attempt succeeds exactly if nothing goes wrong |
| `Lifecycle.Cluster.StartPD` | embedded_tikv.go:204-212 | A spawned PD is in the handle and in the record even if saving the record fails |
| `Lifecycle.Cluster.StartTiKV` | embedded_tikv.go:238-246 | The same for a store |
| `Lifecycle.Cluster.PrepareDataPath` | embedded_tikv.go:408-423 | The directory is the caller's, or the one named after the record; it exists unless its creation failed |
| `Lifecycle.Cluster.Teardown` | embedded_tikv.go:344-404 | It fails exactly if some `stop` failed or the library's directory could not be removed; the directory goes exactly if it is the library's and can be removed, whatever the stops did; on failure the record stays, otherwise every server has exited and the record goes; the lock is released either way; stores stop in any order, all before PD |
| `Lifecycle.Cluster.Stop` | embedded_tikv.go:318-337 | The handle is left with no process and no record; success means that every stop succeeded, so every server has exited, and that the directory could be removed where it is the library's; an error leaves every record in place |
| `Lifecycle.Process.Stop` | process.go:123-160 | It succeeds exactly if the server is seen to have exited; a server is signalled only when just seen running, first SIGTERM, then SIGKILL, and is given up only on a signal that could not be sent or after SIGKILL; whatever the outcome, the watchdog has been told and the log closed |
| `Lifecycle.Process.StandDown` | process.go:166-174 | The line is in the pipe before its write end is closed |
| `Lifecycle.OpenRecord` | registry.go:94-124 | A new id with its lock file and held lock; or nothing, the lock file being removed again if the lock could not be taken; or a record whose first save failed and whose lock is held |
| `Lifecycle.ClusterRecord.Save` | registry.go:150-176 | The published record becomes the one in memory, or nothing changes |
| `Lifecycle.ClusterRecord.Close` | registry.go:179-187 | The lock is released; record and lock file go, except where the file system refuses, which nobody notices |
| `Lifecycle.ClusterRecord.Abandon` | registry.go:192-198 | The lock is released and the record stays |
| `CommandLine.ServerMatchesExactly` | registry.go:413-422 | The command line of a server of cluster y references the directory of x if and only if x is y |
| `CommandLine.SubstringMatchesEveryExtension` | registry.go:415-418 | Without the trailing separator it would match if and only if x is a prefix of y |
| `CommandLine.ReferencesSpelled` | registry.go:420-422 | A command line references a directory exactly if the directory is not empty and stands somewhere in it before a separator |
| `CommandLine.PDCommand` | pd.go:41-53 | PD's arguments mark only its own directory and name a file below it |
| `CommandLine.TiKVCommand` | tikv.go:34-43 | A store's arguments do likewise |
| `CommandLine.DataInDirectory` | pd.go:41-53 | PD and the stores name their binary and keep configuration and data below the cluster's directory |
| `CommandLine.WatchdogMatchesExactly` | watchdog.go:118-123 | The watchdog shell's command line references the directory of x if and only if x is y, or y followed by a space and what the record path has before its first separator |
| `CommandLine.WatchdogMatchesTrailingSpace` | watchdog.go:118-123 | With an absolute record path that is if and only if x is y or y followed by a space |
| `Toml.NestConfig` | toml.go:31-70 | It succeeds if and only if no key is empty, starts or ends with a dot or has two in a row, and no key followed by a dot begins another; a path then reads a value if and only if it holds no dot and joining it with dots spells a key, and it is that key's; otherwise the error is for the least key without a place |
| `Toml.NestKeys` | toml.go:35-67 | The same for any processing order, so that a successful result does not depend on it |
| `Toml.NestKey` | toml.go:35-67 | One more key of the order placed without conflict, or the error the source reports for it, and then the configuration is not well formed |
| `Toml.Walk` | toml.go:39-55 | The walk ends at the table of the key's parent path, having added only tables on the way |
| `Toml.Store` | toml.go:62-66 | The value is stored in the table the walk ended at, exactly if no other key lies below it |
| `Toml.Place` | toml.go:36-66 | One key is added to the tables, or the reason it cannot be is found |
| `Toml.FirstFailureIsLeastBad` | toml.go:34-64 | In sorted order the first failure is for the least bad key, a conflict exactly if another key is its proper prefix, and never the "also used as a table" error |
| `Toml.SortedKeys` | binaries.go:381-383 | Every key once, in ascending order |
| `Toml.ReadFrom` | toml.go:44-54 | Reading the tables by any path finds the value, a table or nothing, as the keys ask |
| `Toml.FlattenRoundTrip` | toml.go:36-37 | Splitting the keys into paths loses nothing: the paths that look up a value are just those without dots that spell a key, with its value |
| `Toml.TablesRoundTrip` | toml.go:44-51 | The paths that look up a table are just those that spell what comes before a dot of some key |
| `Toml.SegmentsSpelled` | toml.go:36 | The segments of a key are the one path without dots that spells it |
| `Toml.WellFormedSpelled` | toml.go:39-64 | On the keys' own text, well formed means that none is empty, starts or ends with a dot or has two in a row, and none followed by a dot begins another |
| `Toml.ServerSettings` | embedded_tikv.go:199-202 | In the merged, nested settings the path that spells a key reads the override if there is one, else the default, and no other path reads a value |
| `Ports.RunIsExact` | ports.go:76-95 | Over every run with a monotone clock, two grants of a port are more than a minute apart and the table holds exactly the grants no older than that |
| `Ports.Reservations.ReservePort` | ports.go:76-95 | Granted exactly if nobody was granted the port within the last minute |
| `Ports.Reservations.FreePort` | ports.go:29-42 | At most a hundred of the kernel's ports, up to the first that it refuses or that nobody was granted within the last minute, with the requests of others in between; it fails exactly on a refusal or after a hundred ports that were all turned down |
| `Ports.Reservations.FreePorts` | ports.go:45-57 | Whatever others are granted in between, ports granted within one minute are pairwise distinct; it fails only as one port does |
| `Ports.GrantedDistinct` | ports.go:75-95 | Any two grants within one minute, whoever asked, are of different ports |
| `Ports.ServersAreDisjoint` | embedded_tikv.go:152-173 | From distinct ports every server gets two of its own |
| `Versions.OrderIsTotalPreorder` | binaries.go:407-422 | The comparison is antisymmetric in sign, transitive, and zero exactly on versions equal up to a leading "v" |
| `Versions.OrderIsNumeric` | binaries.go:407-422 | On fields that are decimals without leading zeros it is numeric tuple order |
| `Versions.ReleasesInNumericOrder` | binaries.go:407-422 | Of any two releases written as tags, with or without the "v", the one with the smaller tuple of numbers comes first |
| `Versions.FirstDifferentField` | binaries.go:411-421 | Any other versions are ordered by the first dot-separated field in which they differ: by length, then as text; and a version comes before its extensions |
| `Versions.CompareVersions` | binaries.go:407-422 | The loop computes that comparison |
| `Versions.RecentVersions` | binaries.go:387-405 | The eight greatest versions without a hyphen, or all of them if fewer, ascending and without repetition |
| `Download.Directory.Install` | binaries.go:284-345 | It succeeds exactly if the file system and the connection hold, some regular member of the archive has the wanted base name and the hash of the whole body is the manifest's; the destination is then the executable content of the first such member; failure changes no file; no temporary file is left |
| `Download.ExtractEntry` | binaries.go:349-379 | It succeeds exactly if there is a regular member with the wanted base name and the connection lasts to the end of the first; the content is that member's |
| `Download.UnpackedIsFirst` | binaries.go:359-378 | The content found is that of the first regular member with the wanted base name, and none if there is none |
| `Download.UnpackedSpelled` | binaries.go:359-378 | The same as if-and-only-ifs |
| `Download.BaseOfChild` | binaries.go:347-348 | A name at the root or below a directory is its own base, whatever slashes follow it |
| `BinaryCache.InstalledAtMostOnce` | binaries.go:64-100 | Under any interleaving with failures and crashes, each binary is installed at most once and its path is absent or complete and executable |
| `BinaryCache.FoundMeansBoth` | binaries.go:97-102 | Whoever returns without an error has both binaries |
| `BinaryCache.ErrorMeansFailure` | binaries.go:64-103 | Whoever returns an error has itself failed at something while it held the lock |
| `BinaryCache.FoundWithoutLock` | binaries.go:64-66 | Where both are installed, looking is enough and the lock is not taken |
| `BinaryCache.EverybodyCanFind` | binaries.go:72-103 | From every point of every run, whoever is at it with nobody else holding the lock can go on to get both, if the mirror serves them |
| `BinaryCache.InstalledForGood` | binaries.go:75-84 | An installed binary is never replaced, whatever the others do |

## Left out

- Record files that do not parse are part of `Sweep.dfy` and not of `Protocol.dfy`, where every record is one its owner published by rename.
- Temporary files of `save` are not part of `Protocol.dfy`: nobody lists or reads them, and a crash or a failed rename can leave one behind for good. `Sweep.dfy` shows that a sweep never touches them.
- Process enumeration is the true process table, checking a command line and killing are one step, and a kill works at once; a pid recycled between enumeration and kill is not modelled, nor is one recycled under a watchdog's `kill -9`.
- A server and the processes of its group are one process.
- `LiveClusters.LiveClusterIsIntact`: says nothing of the directory and the servers of a cluster that a sweep of another registry found old and unused; `LiveClusters.ForeignClusterSurvives` and `LiveClusters.ExposedExactly` say when that happens.
- Clusters in a caller's directory may share or nest directories; the protocol allows it, and no server of theirs is promised to survive a record of another such cluster.
- `Refinement.SweepAlone`: is about sweeps that nobody disturbs and that list what is there; interleaved sweeps and stale listings are the subject of `LiveClusters.dfy` and of `Recovery.StuckForever` and `Recovery.OccupiedForever`.
- `Lifecycle.Cluster.Start`: says of a server that outlives a failed start that its `stop` failed and its record is kept; how long it then runs is not modelled.
- The kernel drops all descriptors of a dead process in one step.
- Directories named by this library exist only through this library, ids never recur in any registry, and only servers name library directories on their command lines.
- The sweeps that `Start` and `Stop` run are not repeated inside `Lifecycle.dfy`, and its parallel stops are interleaved as whole calls.
- Readiness polling, `aliveGuard`, log tails, error texts and hints: whether a wait succeeds is up to the outside.
- HTTP, JSON and TOML encoding, gzip and tar: the hash is any function and the archive a list of members.
- `mirror.resolve` and the other lookups in manifests: one-branch facts.
- Configuration values that are nil or tables themselves; `Config` builders, default settings, `platformFor` and endpoint getters.
- `Strings.Compare` compares characters; Go compares bytes, which is the same order for text in UTF-8.
