/** What one undisturbed sweep leaves, entry by entry: the promises of registry.go:200-256. */
module SweepLaws {
  import opened Registry
  import opened Sweep

  // -------- Dead records, in the fields of the record --------

  /** A record whose lock is there and free. */
  ghost predicate Dead(w: World, id: Id) { id in w.records && id in w.locks && w.locks[id] !in w.held }

  /** An intact dead record. */
  ghost predicate DeadRecord(w: World, id: Id, r: Record) { Dead(w, id) && w.records[id] == Parsed(r) }

  /** Some dead record says that the path is the library's own. */
  ghost predicate OwnedByDead(w: World, path: DataPath) {
    exists id, r :: DeadRecord(w, id, r) && r.owns && r.dataPath == path && path != NoPath
  }

  /** The record lists the process: under its pid it names a binary and a directory that the
      command line also names. */
  ghost predicate Lists(w: World, r: Record, pid: Pid) {
    && pid in w.procs && r.dataPath != NoPath && r.dataPath in w.procs[pid].paths
    && exists v | v in r.servers :: v.pid == pid && pid > 0 && v.binary != "" && v.binary in w.procs[pid].binaries
  }

  /** Some dead record lists the process, or owns a library directory that it names. */
  ghost predicate DoomedByDead(w: World, pid: Pid) {
    exists id, r :: DeadRecord(w, id, r) && DoomedFor(w, r, pid)
  }

  ghost predicate DoomedFor(w: World, r: Record, pid: Pid) {
    || Lists(w, r, pid)
    || (r.owns && r.dataPath.Library? && pid in w.procs && pid != w.self && r.dataPath in w.procs[pid].paths)
  }

  lemma DoomedSpelled(w: World, id: Id, r: Record, pid: Pid)
    requires DeadRecord(w, id, r)
    ensures pid in w.Doomed(id) <==> DoomedFor(w, r, pid)
  {
    if Lists(w, r, pid) {
      var v :| v in r.servers && v.pid == pid && pid > 0 && v.binary != "" && v.binary in w.procs[pid].binaries;
      assert w.IsServer(v, r.dataPath);
    }
  }

  lemma KilledSpelled(w: World, pid: Pid)
    ensures w.KilledFor(w.records.Keys, pid) <==> DoomedByDead(w, pid)
  {
    if w.KilledFor(w.records.Keys, pid) {
      var id :| id in w.records.Keys && pid in w.Doomed(id);
      assert DeadRecord(w, id, w.records[id].record);
      DoomedSpelled(w, id, w.records[id].record, pid);
    }
    if DoomedByDead(w, pid) {
      var id, r :| DeadRecord(w, id, r) && DoomedFor(w, r, pid);
      DoomedSpelled(w, id, r, pid);
      assert id in w.records.Keys;
    }
  }

  lemma RemovedSpelled(w: World, path: DataPath)
    ensures w.RemovedFor(w.records.Keys, path) <==> OwnedByDead(w, path)
  {
    if w.RemovedFor(w.records.Keys, path) {
      var id :| id in w.records.Keys && path in w.Removed(id);
      assert DeadRecord(w, id, w.records[id].record);
    }
    if OwnedByDead(w, path) {
      var id, r :| DeadRecord(w, id, r) && r.owns && r.dataPath == path && path != NoPath;
      assert id in w.records.Keys && path in w.Removed(id);
    }
  }

  // -------- What survives --------

  /** The first pass takes exactly the dead records with their locks, what they own and whom they
      doom. */
  lemma FirstPass(w: World, id: Id, path: DataPath, pid: Pid)
    ensures id in w.Pass1().records <==> id in w.records && !Dead(w, id)
    ensures id in w.Pass1().locks <==> id in w.locks && !Dead(w, id)
    ensures path in w.Pass1().dirs <==> path in w.dirs && !OwnedByDead(w, path)
    ensures pid in w.Pass1().procs <==> pid in w.procs && !DoomedByDead(w, pid)
    ensures pid in w.Pass1().procs ==> w.Pass1().procs[pid] == w.procs[pid]
  {
    KilledSpelled(w, pid);
    RemovedSpelled(w, path);
  }

  /** A record survives exactly if its lock is missing or held; a lock exactly if it is held. */
  lemma RecordsAndLocks(w: World, id: Id)
    ensures id in w.Swept().records <==> id in w.records && (id !in w.locks || w.locks[id] in w.held)
    ensures id in w.Swept().records ==> w.Swept().records[id] == w.records[id]
    ensures id in w.Swept().locks <==> id in w.locks && w.locks[id] in w.held
    ensures id in w.Swept().locks ==> w.Swept().locks[id] == w.locks[id]
  {
    var w1 := w.Pass1();
    var w2 := w1.Pass2();
    assert id in w1.records <==> id in w.records && !w.Free(id);
    assert id in w1.locks <==> id in w.locks && !w.Reclaims(id);
    assert id in w2.locks <==> id in w1.locks && !(id in w1.DirIds() && w1.Stranded(id));
  }

  /** Some process that the first pass spares names the library directory. */
  ghost predicate UsedBySpared(w: World, id: Id) {
    exists pid | pid in w.procs :: Library(id) in w.procs[pid].paths && !DoomedByDead(w, pid)
  }

  lemma UsedSpelled(w: World, id: Id)
    ensures w.Pass1().Used(id) <==> UsedBySpared(w, id)
  {
    var w1 := w.Pass1();
    if w1.Used(id) {
      var pid :| pid in w1.procs && Library(id) in w1.procs[pid].paths;
      FirstPass(w, id, NoPath, pid);
    }
    if UsedBySpared(w, id) {
      var pid :| pid in w.procs && Library(id) in w.procs[pid].paths && !DoomedByDead(w, pid);
      FirstPass(w, id, NoPath, pid);
    }
  }

  /** A library directory survives exactly if no dead record owns it, and its record survives, or
      its lock is held, or it has neither record nor lock left after the first pass and has changed
      within five minutes or is named by a process that the first pass spares. */
  lemma Directories(w: World, id: Id)
    ensures Library(id) in w.Swept().dirs <==>
              && Library(id) in w.dirs && !OwnedByDead(w, Library(id))
              && (|| (id in w.records && !Dead(w, id))
                  || (id in w.locks && w.locks[id] in w.held)
                  || ((id !in w.locks || Dead(w, id)) && (w.now - w.dirs[Library(id)] < 300 || UsedBySpared(w, id))))
    ensures Library(id) in w.Swept().dirs ==> w.Swept().dirs[Library(id)] == w.dirs[Library(id)]
  {
    var w1 := w.Pass1();
    RemovedSpelled(w, Library(id));
    UsedSpelled(w, id);
    if Library(id) in w1.dirs {
      assert id in w1.DirIds();
    }
  }

  /** Any other directory goes only for a dead record that owns it. */
  lemma CallerDirectories(w: World, path: DataPath)
    requires !path.Library?
    ensures path in w.Swept().dirs <==>
              path in w.dirs
              && !(path != NoPath
                   && exists id :: id in w.records && id in w.locks && w.locks[id] !in w.held
                                   && w.records[id].Parsed? && w.records[id].record.owns && w.records[id].record.dataPath == path)
    ensures path in w.Swept().dirs ==> w.Swept().dirs[path] == w.dirs[path]
  {
    RemovedSpelled(w, path);
    if exists id :: id in w.records && id in w.locks && w.locks[id] !in w.held
                    && w.records[id].Parsed? && w.records[id].record.owns && w.records[id].record.dataPath == path {
      var id :| id in w.records && id in w.locks && w.locks[id] !in w.held
                && w.records[id].Parsed? && w.records[id].record.owns && w.records[id].record.dataPath == path;
      assert DeadRecord(w, id, w.records[id].record);
    }
  }

  /** The second pass removes the library directory. */
  ghost predicate GoesLater(w: World, id: Id) {
    Library(id) in w.dirs && Library(id) !in w.Swept().dirs && !OwnedByDead(w, Library(id))
  }

  lemma StrandedSpelled(w: World, id: Id)
    ensures id in w.Pass1().DirIds() && w.Pass1().Stranded(id) <==> GoesLater(w, id)
  {
    RemovedSpelled(w, Library(id));
    assert Library(id) in w.Pass1().dirs <==> id in w.Pass1().DirIds();
  }

  /** Which processes a sweep kills: those a dead record dooms, and those other than itself that
      name a directory the second pass removes. */
  lemma Processes(w: World, pid: Pid)
    ensures pid in w.Swept().procs <==>
              && pid in w.procs && !DoomedByDead(w, pid)
              && !(pid != w.self && exists id :: GoesLater(w, id) && Library(id) in w.procs[pid].paths)
    ensures pid in w.Swept().procs ==> w.Swept().procs[pid] == w.procs[pid]
  {
    var w1 := w.Pass1();
    FirstPass(w, "", NoPath, pid);
    if pid in w1.procs {
      KilledLater(w, pid);
    }
  }

  lemma KilledLater(w: World, pid: Pid)
    requires pid in w.Pass1().procs
    ensures w.Pass1().KilledIn(w.Pass1().DirIds(), pid) <==>
              pid != w.self && exists id :: GoesLater(w, id) && Library(id) in w.procs[pid].paths
  {
    var w1 := w.Pass1();
    if w1.KilledIn(w1.DirIds(), pid) {
      var id :| id in w1.DirIds() && w1.Stranded(id) && pid in w1.Using(Library(id));
      StrandedSpelled(w, id);
    }
    if pid != w.self && exists id :: GoesLater(w, id) && Library(id) in w.procs[pid].paths {
      var id :| GoesLater(w, id) && Library(id) in w.procs[pid].paths;
      StrandedSpelled(w, id);
      assert pid in w1.Using(Library(id));
    }
  }

  /** What a sweep counts: the intact dead records, and the directories of the second pass. */
  lemma Counts(w: World)
    ensures w.Reclaimed() ==
              |set id | id in w.records && Dead(w, id) && w.records[id].Parsed?|
              + |set path | path in w.dirs && path.Library? && GoesLater(w, path.id)|
  {
    var w1 := w.Pass1();
    assert (set id | id in w.records.Keys && w.Reclaims(id) && w.records[id].Parsed?)
           == set id | id in w.records && Dead(w, id) && w.records[id].Parsed?;
    var ids := set id | id in w1.DirIds() && w1.Stranded(id);
    var paths := set path | path in w.dirs && path.Library? && GoesLater(w, path.id);
    forall id ensures id in ids <==> Library(id) in paths {
      StrandedSpelled(w, id);
    }
    assert forall path | path in paths :: path == Library(path.id);
    SameNumber(ids, paths);
  }

  lemma {:induction false} SameNumber(ids: set<Id>, paths: set<DataPath>)
    requires forall id | id in ids :: Library(id) in paths
    requires forall path | path in paths :: path.Library? && path.id in ids
    ensures |ids| == |paths|
  {
    if ids == {} {
      assert paths == {};
    } else {
      var id :| id in ids;
      SameNumber(ids - {id}, paths - {Library(id)});
    }
  }

  // -------- Live clusters --------

  /** Records name only their own library directory, as every record this library writes does. */
  ghost predicate OwnPaths(w: World) {
    forall id | id in w.records && w.records[id].Parsed? && w.records[id].record.dataPath.Library? ::
      w.records[id].record.dataPath.id == id
  }

  /** Some dead record that names a caller's directory lists the process: it runs under a recorded
      pid and names the recorded binary and that directory. */
  ghost predicate DoomedForCaller(w: World, pid: Pid) {
    exists id, r :: DeadRecord(w, id, r) && r.dataPath.Caller? && Lists(w, r, pid)
  }

  /** A dead record dooms a process that names the directory of another cluster only so. */
  lemma DoomedByAnother(w: World, id: Id, pid: Pid)
    requires OwnPaths(w) && w.OneDirEach() && pid in w.procs && Library(id) in w.procs[pid].paths && !Dead(w, id)
    ensures DoomedByDead(w, pid) <==> DoomedForCaller(w, pid)
  {
    forall x, r | DeadRecord(w, x, r) && DoomedFor(w, r, pid) ensures DoomedForCaller(w, pid) {
      assert r.dataPath in w.procs[pid].paths;
    }
  }

  /** Everything of a cluster whose lock is held survives: record, lock and directory; and of the
      processes that name its directory exactly those no dead record lists for a caller's. */
  lemma LiveClusterUntouched(w: World, id: Id, pid: Pid)
    requires OwnPaths(w) && id in w.locks && w.locks[id] in w.held
    ensures id in w.records ==> id in w.Swept().records && w.Swept().records[id] == w.records[id]
    ensures id in w.Swept().locks && w.Swept().locks[id] == w.locks[id]
    ensures Library(id) in w.dirs ==> Library(id) in w.Swept().dirs
    ensures w.OneDirEach() && pid in w.procs && Library(id) in w.procs[pid].paths ==>
              (pid in w.Swept().procs <==> !DoomedForCaller(w, pid))
  {
    RecordsAndLocks(w, id);
    Directories(w, id);
    if w.OneDirEach() && pid in w.procs && Library(id) in w.procs[pid].paths {
      Processes(w, pid);
      DoomedByAnother(w, id, pid);
    }
  }

  /** A cluster whose records are kept in another registry is invisible here: nothing of this
      registry names it. Its directory survives exactly while it is young or in use, and it is in
      use exactly by the processes that name it and that no dead record lists for a caller's. */
  lemma ForeignDirectory(w: World, id: Id)
    requires OwnPaths(w) && Library(id) in w.dirs && id !in w.records && id !in w.locks
    ensures Library(id) in w.Swept().dirs <==> w.now - w.dirs[Library(id)] < 300 || UsedBySpared(w, id)
    ensures w.OneDirEach() ==>
              (UsedBySpared(w, id) <==>
                 exists pid | pid in w.procs :: Library(id) in w.procs[pid].paths && !DoomedForCaller(w, pid))
  {
    Directories(w, id);
    NotOwnedByOthers(w, id);
    if w.OneDirEach() {
      UsedAfterPass1(w, id);
      UsedSpelled(w, id);
    }
  }

  /** Records name only their own directory, so a cluster's is owned by no other's record. */
  lemma NotOwnedByOthers(w: World, id: Id)
    requires OwnPaths(w) && !Dead(w, id)
    ensures !OwnedByDead(w, Library(id))
  {
  }

  lemma UsedAfterPass1(w: World, id: Id)
    requires OwnPaths(w) && w.OneDirEach() && !w.Reclaims(id)
    ensures w.Pass1().Used(id) <==>
              exists pid | pid in w.procs :: Library(id) in w.procs[pid].paths && !DoomedForCaller(w, pid)
  {
    UsedSpelled(w, id);
    forall pid | pid in w.procs && Library(id) in w.procs[pid].paths
      ensures DoomedByDead(w, pid) <==> DoomedForCaller(w, pid)
    {
      DoomedByAnother(w, id, pid);
    }
  }

  // -------- A second sweep --------

  lemma SecondPass1(w: World)
    requires forall id | id in w.records :: !w.Free(id)
    ensures w.Pass1() == w
  {
    assert forall id :: id in w.records ==> !w.Reclaims(id) && w.Doomed(id) == {} && w.Removed(id) == {};
    assert forall pid :: !w.KilledFor(w.records.Keys, pid);
    assert forall path :: !w.RemovedFor(w.records.Keys, path);
    var v := w.Pass1();
    assert v.records == w.records && v.locks == w.locks && v.dirs == w.dirs && v.procs == w.procs;
  }

  lemma SecondPass2(w: World)
    requires forall id | id in w.DirIds() :: !w.Stranded(id)
    ensures w.Pass2() == w
  {
    assert forall pid :: !w.KilledIn(w.DirIds(), pid);
    var v := w.Pass2();
    assert v.locks == w.locks && v.procs == w.procs;
    assert forall path | path in w.dirs && path.Library? :: path.id in w.DirIds();
    assert v.dirs == w.dirs;
  }

  lemma SecondPass3(w: World)
    requires forall id | id in w.locks :: !w.Stale(id)
    ensures w.Pass3() == w
  {
    assert w.Pass3().locks == w.locks;
  }

  /** What keeps a directory through one sweep keeps it through the next. */
  lemma StillNotStranded(w: World, id: Id)
    requires w.OneDirEach() && Library(id) in w.Swept().dirs
    ensures !w.Swept().Stranded(id)
  {
    var s, w1 := w.Swept(), w.Pass1();
    RecordsAndLocks(w, id);
    Directories(w, id);
    if id !in s.records && !w.Held(id) && w1.Used(id) {
      var pid :| pid in w1.procs && Library(id) in w1.procs[pid].paths;
      assert id in w1.DirIds() && !w1.Stranded(id);
      assert pid in s.procs by {
        Processes(w, pid);
        assert forall x | x in w1.DirIds() && pid in w1.Using(Library(x)) :: x == id;
      }
      assert s.Used(id);
    }
  }

  /** A sweep is idempotent: a second one at the same time changes nothing and counts nothing. */
  lemma SweepIsIdempotent(w: World)
    requires w.OneDirEach()
    ensures w.Swept().Swept() == w.Swept()
    ensures w.Swept().Reclaimed() == 0
  {
    var s := w.Swept();
    forall id ensures id in s.records ==> !s.Free(id)
              ensures id in s.locks ==> !s.Stale(id)
    {
      RecordsAndLocks(w, id);
    }
    forall id | id in s.DirIds() ensures !s.Stranded(id) {
      StillNotStranded(w, id);
    }
    SecondPass1(s);
    SecondPass2(s);
    SecondPass3(s);
    assert (set id | id in s.records.Keys && s.Reclaims(id) && s.records[id].Parsed?) == {};
    assert (set id | id in s.DirIds() && s.Stranded(id)) == {};
  }
}
