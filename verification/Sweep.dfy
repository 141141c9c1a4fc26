/** The orphan sweep with nobody interfering (registry.go:200-462). The registry directory, the
    temporary directory and the process table are fields the three passes update in place;
    `World` is a snapshot of them, and `Swept` says what one sweep makes of it. */
module Sweep {
  import opened Registry
  import opened Wrappers

  /** `locks` maps the lock paths to inodes; `held` are the inodes some other process has locked. */
  datatype World = World(records: map<Id, File>, locks: map<Id, Inode>, held: set<Inode>,
                         dirs: map<DataPath, nat>, procs: map<Pid, Process>, temps: set<string>,
                         now: nat, self: Pid)
  {
    predicate Free(id: Id) { id in locks && locks[id] !in held }
    predicate Held(id: Id) { id in locks && locks[id] in held }

    /** `processIsServer` for one recorded server. */
    predicate IsServer(s: ServerRecord, path: DataPath) {
      && s.pid > 0 && s.binary != "" && !path.NoPath?
      && s.pid in procs && s.binary in procs[s.pid].binaries && path in procs[s.pid].paths
    }

    /** Every process but the sweeping one whose command line names the library directory. */
    function Using(path: DataPath): (pids: set<Pid>) {
      set pid | pid in procs && pid != self && path.Library? && path in procs[pid].paths
    }

    function RecordedServers(r: Record): (pids: set<Pid>) {
      set s | s in r.servers && IsServer(s, r.dataPath) :: s.pid
    }

    // -------- Pass 1 --------

    predicate Reclaims(id: Id) { id in records && Free(id) }

    /** What reclaiming a record kills and removes. */
    function DoomedBy(r: Record): set<Pid> {
      RecordedServers(r) + if r.owns then Using(r.dataPath) else {}
    }

    function RemovedBy(r: Record): set<DataPath> {
      if r.owns && !r.dataPath.NoPath? then {r.dataPath} else {}
    }

    function Doomed(id: Id): set<Pid> {
      if Reclaims(id) && records[id].Parsed? then DoomedBy(records[id].record) else {}
    }

    function Removed(id: Id): set<DataPath> {
      if Reclaims(id) && records[id].Parsed? then RemovedBy(records[id].record) else {}
    }

    predicate KilledFor(ids: set<Id>, pid: Pid) { exists id | id in ids :: pid in Doomed(id) }
    predicate RemovedFor(ids: set<Id>, path: DataPath) { exists id | id in ids :: path in Removed(id) }

    function AfterRecords(ids: set<Id>): World {
      this.(records := map id | id in records && !(id in ids && Reclaims(id)) :: records[id],
            locks := map id | id in locks && !(id in ids && Reclaims(id)) :: locks[id],
            dirs := map path | path in dirs && !RemovedFor(ids, path) :: dirs[path],
            procs := map pid | pid in procs && !KilledFor(ids, pid) :: procs[pid])
    }

    // -------- Pass 2 --------

    predicate Used(id: Id) { exists pid | pid in procs :: Library(id) in procs[pid].paths }

    predicate Stranded(id: Id) {
      && Library(id) in dirs && id !in records
      && if id in locks then locks[id] !in held
         else now - dirs[Library(id)] >= GRACE && !Used(id)
    }

    predicate KilledIn(ids: set<Id>, pid: Pid) {
      exists id | id in ids :: Stranded(id) && pid in Using(Library(id))
    }

    function AfterDirs(ids: set<Id>): World {
      this.(locks := map id | id in locks && !(id in ids && Stranded(id)) :: locks[id],
            dirs := map path | path in dirs && !(path.Library? && path.id in ids && Stranded(path.id)) :: dirs[path],
            procs := map pid | pid in procs && !KilledIn(ids, pid) :: procs[pid])
    }

    // -------- Pass 3 --------

    predicate Stale(id: Id) { id !in records && Free(id) }

    function AfterLocks(ids: set<Id>): World {
      this.(locks := map id | id in locks && !(id in ids && Stale(id)) :: locks[id])
    }

    // -------- The whole sweep --------

    function DirIds(): set<Id> { set path | path in dirs && path.Library? :: path.id }

    function Pass1(): World { AfterRecords(records.Keys) }
    function Pass2(): World { AfterDirs(DirIds()) }
    function Pass3(): World { AfterLocks(locks.Keys) }
    function Swept(): World { Pass1().Pass2().Pass3() }

    /** What `CleanOrphans` counts. */
    function RecordsReclaimed(ids: set<Id>): nat {
      |set id | id in ids && Reclaims(id) && records[id].Parsed?|
    }
    function DirsReclaimed(ids: set<Id>): nat { |set id | id in ids && Stranded(id)| }
    function Reclaimed(): nat {
      RecordsReclaimed(records.Keys) + Pass1().DirsReclaimed(Pass1().DirIds())
    }

    /** No process names two library directories. */
    ghost predicate OneDirEach() {
      forall pid, x, y | pid in procs && Library(x) in procs[pid].paths && Library(y) in procs[pid].paths :: x == y
    }
  }

  // -------- Processing one entry after another --------

  /** The effect of one record, as its reclaimer brings it about. */
  lemma OneRecord(w: World, id: Id)
    ensures w.AfterRecords({id}) ==
      if w.Reclaims(id) then
        w.(records := w.records - {id}, locks := w.locks - {id},
           dirs := w.dirs - w.Removed(id), procs := w.procs - w.Doomed(id))
      else w
  {
    var v := w.AfterRecords({id});
    assert forall pid :: w.KilledFor({id}, pid) <==> pid in w.Doomed(id);
    assert forall path :: w.RemovedFor({id}, path) <==> path in w.Removed(id);
    if !w.Reclaims(id) {
      assert v.records == w.records && v.locks == w.locks && v.dirs == w.dirs && v.procs == w.procs;
    } else {
      assert v.records == w.records - {id} && v.locks == w.locks - {id};
      assert v.dirs == w.dirs - w.Removed(id);
      assert v.procs == w.procs - w.Doomed(id);
    }
  }

  lemma OneDir(w: World, id: Id)
    ensures w.AfterDirs({id}) ==
      if w.Stranded(id) then
        w.(locks := w.locks - {id}, dirs := w.dirs - {Library(id)}, procs := w.procs - w.Using(Library(id)))
      else w
  {
    var v := w.AfterDirs({id});
    assert forall pid :: w.KilledIn({id}, pid) <==> w.Stranded(id) && pid in w.Using(Library(id));
    if w.Stranded(id) {
      assert v.locks == w.locks - {id} && v.dirs == w.dirs - {Library(id)};
      assert v.procs == w.procs - w.Using(Library(id));
    } else {
      assert v.locks == w.locks && v.dirs == w.dirs && v.procs == w.procs;
    }
  }

  /** Earlier entries take no doomed process away from a later one but those already gone. */
  lemma DoomedLater(w: World, done: set<Id>, id: Id)
    requires id !in done
    ensures w.AfterRecords(done).Doomed(id) == w.Doomed(id) * w.AfterRecords(done).procs.Keys
  {
    var v := w.AfterRecords(done);
    assert v.Reclaims(id) <==> w.Reclaims(id);
    if w.Reclaims(id) && w.records[id].Parsed? {
      var r := w.records[id].record;
      assert v.records[id] == w.records[id];
      forall pid ensures pid in v.RecordedServers(r) <==> pid in w.RecordedServers(r) && pid in v.procs {
        if pid in w.RecordedServers(r) && pid in v.procs {
          var s :| s in r.servers && w.IsServer(s, r.dataPath) && s.pid == pid;
          assert v.IsServer(s, r.dataPath);
        }
      }
    }
  }

  lemma RecordsOneMore(w: World, done: set<Id>, id: Id)
    requires id !in done
    ensures w.AfterRecords(done).AfterRecords({id}) == w.AfterRecords(done + {id})
    ensures var v := w.AfterRecords(done);
            var counts := v.Reclaims(id) && v.records[id].Parsed?;
            w.RecordsReclaimed(done + {id}) == w.RecordsReclaimed(done) + if counts then 1 else 0
  {
    var v := w.AfterRecords(done);
    RecordsCountOneMore(w, done, id);
    OneRecord(v, id);
    KillOneMore(w, done, id);
    RemoveOneMore(w, done, id);
    var b := w.AfterRecords(done + {id});
    if v.Reclaims(id) {
      assert b.records == v.records - {id} && b.locks == v.locks - {id};
    } else {
      assert b.records == v.records && b.locks == v.locks;
    }
  }

  lemma KillOneMore(w: World, done: set<Id>, id: Id)
    requires id !in done
    ensures var v := w.AfterRecords(done);
            w.AfterRecords(done + {id}).procs == v.procs - v.Doomed(id)
  {
    var v, b := w.AfterRecords(done), w.AfterRecords(done + {id});
    DoomedLater(w, done, id);
    forall pid ensures w.KilledFor(done + {id}, pid) <==> w.KilledFor(done, pid) || pid in w.Doomed(id) {
      if w.KilledFor(done + {id}, pid) {
        var x :| x in done + {id} && pid in w.Doomed(x);
      }
    }
    assert b.procs == v.procs - v.Doomed(id);
  }

  lemma RemoveOneMore(w: World, done: set<Id>, id: Id)
    requires id !in done
    ensures var v := w.AfterRecords(done);
            w.AfterRecords(done + {id}).dirs == v.dirs - v.Removed(id)
  {
    var v, b := w.AfterRecords(done), w.AfterRecords(done + {id});
    assert v.Removed(id) == w.Removed(id);
    forall path ensures w.RemovedFor(done + {id}, path) <==> w.RemovedFor(done, path) || path in w.Removed(id) {
      if w.RemovedFor(done + {id}, path) {
        var x :| x in done + {id} && path in w.Removed(x);
      }
    }
    assert b.dirs == v.dirs - v.Removed(id);
  }

  lemma RecordsCountOneMore(w: World, done: set<Id>, id: Id)
    requires id !in done
    ensures var counts := w.Reclaims(id) && w.records[id].Parsed?;
            w.RecordsReclaimed(done + {id}) == w.RecordsReclaimed(done) + if counts then 1 else 0
  {
    var before := set x | x in done && w.Reclaims(x) && w.records[x].Parsed?;
    var after := set x | x in done + {id} && w.Reclaims(x) && w.records[x].Parsed?;
    assert after == if w.Reclaims(id) && w.records[id].Parsed? then before + {id} else before;
  }

  lemma DirsCountOneMore(w: World, done: set<Id>, id: Id)
    requires id !in done
    ensures w.DirsReclaimed(done + {id}) == w.DirsReclaimed(done) + if w.Stranded(id) then 1 else 0
  {
    var before, after := set x | x in done && w.Stranded(x), set x | x in done + {id} && w.Stranded(x);
    assert after == if w.Stranded(id) then before + {id} else before;
  }

  lemma StrandedLater(w: World, done: set<Id>, id: Id)
    requires id !in done && w.OneDirEach()
    ensures w.AfterDirs(done).Stranded(id) <==> w.Stranded(id)
  {
    if w.Used(id) {
      var pid :| pid in w.procs && Library(id) in w.procs[pid].paths;
      assert pid in w.AfterDirs(done).procs;
    }
  }

  lemma DirsOneMore(w: World, done: set<Id>, id: Id)
    requires id !in done && w.OneDirEach()
    ensures w.AfterDirs(done).AfterDirs({id}) == w.AfterDirs(done + {id})
    ensures w.DirsReclaimed(done + {id}) == w.DirsReclaimed(done) + if w.AfterDirs(done).Stranded(id) then 1 else 0
    ensures id in w.DirIds() ==> Library(id) in w.AfterDirs(done).dirs
  {
    var v := w.AfterDirs(done);
    DirsCountOneMore(w, done, id);
    StrandedLater(w, done, id);
    OneDir(v, id);
    var b := w.AfterDirs(done + {id});
    DirsKillOneMore(w, done, id);
    assert v.AfterDirs({id}).locks == b.locks && v.AfterDirs({id}).dirs == b.dirs;
  }

  lemma DirsKillOneMore(w: World, done: set<Id>, id: Id)
    requires id !in done && w.OneDirEach()
    ensures var v := w.AfterDirs(done);
            w.AfterDirs(done + {id}).procs == if w.Stranded(id) then v.procs - v.Using(Library(id)) else v.procs
  {
    var v, b := w.AfterDirs(done), w.AfterDirs(done + {id});
    forall pid ensures w.KilledIn(done + {id}, pid) <==> w.KilledIn(done, pid) || (w.Stranded(id) && pid in w.Using(Library(id))) {
      KilledInOneMore(w, done, id, pid);
    }
    if w.Stranded(id) {
      assert b.procs == v.procs - v.Using(Library(id));
    } else {
      assert b.procs == v.procs;
    }
  }

  lemma KilledInOneMore(w: World, done: set<Id>, id: Id, pid: Pid)
    ensures w.KilledIn(done + {id}, pid) <==> w.KilledIn(done, pid) || w.KilledIn({id}, pid)
  {
    if w.KilledIn(done + {id}, pid) {
      var x :| x in done + {id} && w.Stranded(x) && pid in w.Using(Library(x));
    }
  }

  lemma LocksOneMore(w: World, done: set<Id>, id: Id)
    requires id !in done
    ensures w.AfterLocks(done).AfterLocks({id}) == w.AfterLocks(done + {id})
  {
    var a, b := w.AfterLocks(done).AfterLocks({id}), w.AfterLocks(done + {id});
    assert a.locks == b.locks;
  }

  // -------- The sweep itself --------

  class Machine {
    var records: map<Id, File>
    var locks: map<Id, Inode>
    var held: set<Inode>
    var dirs: map<DataPath, nat>
    var procs: map<Pid, Process>
    var temps: set<string>
    var now: nat
    var self: Pid

    function Snapshot(): World
      reads this
    {
      World(records, locks, held, dirs, procs, temps, now, self)
    }

    /** `acquireFileLock(path, false, false)`: a missing file and a lock somebody holds both give
        nothing, and nothing is created. */
    method TryLock(id: Id) returns (lock: Option<Inode>)
      modifies this`held
      ensures lock.Some? <==> id in locks && locks[id] !in old(held)
      ensures lock.Some? ==> lock.value == locks[id] && held == old(held) + {locks[id]}
      ensures lock.None? ==> held == old(held)
    {
      if id !in locks {
        return None;
      }
      if locks[id] in held {
        return None;
      }
      held := held + {locks[id]};
      return Some(locks[id]);
    }

    method Release(inode: Inode)
      modifies this`held
      ensures held == old(held) - {inode}
    {
      held := held - {inode};
    }

    method SignalGroup(pid: Pid)
      modifies this`procs
      ensures procs == old(procs) - {pid}
    {
      procs := procs - {pid};
    }

    /** `killProcessesUsing`: every process that names the directory, but the sweeping one. */
    method KillProcessesUsing(path: DataPath)
      modifies this`procs
      ensures procs == old(procs) - old(Snapshot()).Using(path)
      ensures forall pid :: pid in procs <==>
                pid in old(procs) && !(path.Library? && pid != self && path in old(procs)[pid].paths)
    {
      if !path.Library? {
        return;
      }
      var rest := procs.Keys;
      while rest != {}
        invariant rest <= old(procs).Keys
        invariant forall pid :: pid in procs <==>
                    pid in old(procs) && !(pid in old(Snapshot()).Using(path) && pid !in rest)
        invariant forall pid | pid in procs :: procs[pid] == old(procs)[pid]
        decreases rest
      {
        var pid :| pid in rest;
        if pid != self && pid in procs && path in procs[pid].paths {
          SignalGroup(pid);
        }
        rest := rest - {pid};
      }
    }

    method KillRecorded(record: Record)
      modifies this`procs
      ensures procs == old(procs) - old(Snapshot()).RecordedServers(record)
    {
      for i := 0 to |record.servers|
        invariant procs == old(procs) -
                    (set s | s in record.servers[..i] && old(Snapshot()).IsServer(s, record.dataPath) :: s.pid)
      {
        var server := record.servers[i];
        if Snapshot().IsServer(server, record.dataPath) {
          SignalGroup(server.pid);
        }
        assert record.servers[..i + 1] == record.servers[..i] + [server];
      }
      assert record.servers[..|record.servers|] == record.servers;
    }

    /** The body of `reclaimRecord` once the lock is taken. */
    method ReclaimLocked(id: Id) returns (ok: bool)
      modifies this`records, this`locks, this`dirs, this`procs
      ensures ok <==> id in old(records) && old(records)[id].Parsed?
      ensures id !in old(records) ==> Snapshot() == old(Snapshot())
      ensures id in old(records) ==> records == old(records) - {id} && locks == old(locks) - {id}
      ensures !ok ==> dirs == old(dirs) && procs == old(procs)
      ensures ok ==> var w, record := old(Snapshot()), old(records)[id].record;
                     dirs == old(dirs) - w.RemovedBy(record) && procs == old(procs) - w.DoomedBy(record)
    {
      if id !in records {
        return false;
      }
      if records[id].Garbage? {
        records := records - {id};
        locks := locks - {id};
        return false;
      }
      var record := records[id].record;
      KillRecorded(record);
      if record.owns {
        KillProcessesUsing(record.dataPath);
      }
      if record.owns && !record.dataPath.NoPath? {
        dirs := dirs - {record.dataPath};
      }
      records := records - {id};
      locks := locks - {id};
      return true;
    }

    /** `reclaimRecord`. */
    method ReclaimRecord(id: Id) returns (ok: bool)
      modifies this
      ensures Snapshot() == old(Snapshot()).AfterRecords({id})
      ensures ok <==> id in old(records) && id in old(locks) && old(locks)[id] !in old(held) && old(records)[id].Parsed?
    {
      OneRecord(Snapshot(), id);
      var lock := TryLock(id);
      if lock.None? {
        return false;
      }
      ok := ReclaimLocked(id);
      Release(lock.value);
    }

    /** Pass 1: every record listed at the start, in any order. */
    method SweepRecords() returns (reclaimed: nat)
      modifies this
      ensures Snapshot() == old(Snapshot()).Pass1()
      ensures reclaimed == old(Snapshot()).RecordsReclaimed(old(records).Keys)
      ensures reclaimed == |set id | id in old(records) && id in old(locks) && old(locks)[id] !in old(held) && old(records)[id].Parsed?|
    {
      reclaimed := 0;
      ghost var w := Snapshot();
      var rest := records.Keys;
      ghost var done: set<Id> := {};
      NothingDone(w);
      while rest != {}
        invariant done !! rest && done + rest == w.records.Keys
        invariant Snapshot() == w.AfterRecords(done)
        invariant reclaimed == w.RecordsReclaimed(done)
        decreases rest
      {
        var id :| id in rest;
        RecordsOneMore(w, done, id);
        var ok := ReclaimRecord(id);
        if ok {
          reclaimed := reclaimed + 1;
        }
        rest, done := rest - {id}, done + {id};
      }
      assert done == w.records.Keys;
      assert (set id | id in w.records.Keys && w.Reclaims(id) && w.records[id].Parsed?)
             == set id | id in w.records && id in w.locks && w.locks[id] !in w.held && w.records[id].Parsed?;
    }

    /** Pass 2: every library directory listed at the start, in any order. Which locks it removes
        never depends on that order; which directories and processes do not either, as long as no
        process names two of them. */
    method SweepDataDirectories() returns (reclaimed: nat)
      modifies this
      ensures records == old(records) && held == old(held) && temps == old(temps) && now == old(now) && self == old(self)
      ensures locks == old(Snapshot()).Pass2().locks
      ensures old(Snapshot()).OneDirEach() ==>
                Snapshot() == old(Snapshot()).Pass2()
                && reclaimed == old(Snapshot()).DirsReclaimed(old(Snapshot()).DirIds())
    {
      reclaimed := 0;
      ghost var w := Snapshot();
      var rest := Snapshot().DirIds();
      ghost var done: set<Id> := {};
      NothingDone(w);
      while rest != {}
        invariant done !! rest && done + rest == w.DirIds()
        invariant records == w.records && held == w.held && temps == w.temps && now == w.now && self == w.self
        invariant forall id | id in rest :: Library(id) in dirs
        invariant locks == w.AfterDirs(done).locks
        invariant w.OneDirEach() ==> Snapshot() == w.AfterDirs(done) && reclaimed == w.DirsReclaimed(done)
        decreases rest
      {
        var id :| id in rest;
        if w.OneDirEach() {
          DirsOneMore(w, done, id);
        }
        OneDir(Snapshot(), id);
        LocksOfOneMoreDir(w, Snapshot(), done, id);
        var ok := ReclaimDirectory(id);
        if ok {
          reclaimed := reclaimed + 1;
        }
        rest, done := rest - {id}, done + {id};
      }
      assert done == w.DirIds();
    }

    /** The body of that loop for one directory. */
    method ReclaimDirectory(id: Id) returns (ok: bool)
      requires Library(id) in dirs
      modifies this
      ensures Snapshot() == old(Snapshot()).AfterDirs({id})
      ensures ok <==>
                && id !in records
                && if id in old(locks) then old(locks)[id] !in old(held)
                   else now - old(dirs)[Library(id)] >= 300 && forall pid | pid in old(procs) :: Library(id) !in old(procs)[pid].paths
    {
      OneDir(Snapshot(), id);
      if id in records {
        return false;
      }
      if id in locks {
        var lock := TryLock(id);
        if lock.None? {
          return false;
        }
        Release(lock.value);
      } else {
        if now - dirs[Library(id)] < GRACE {
          return false;
        }
        if Snapshot().Used(id) {
          return false;
        }
      }
      KillProcessesUsing(Library(id));
      dirs := dirs - {Library(id)};
      locks := locks - {id};
      return true;
    }

    /** Pass 3: every lock listed at the start, in any order. */
    method SweepStaleLocks()
      modifies this
      ensures Snapshot() == old(Snapshot()).Pass3()
    {
      ghost var w := Snapshot();
      var rest := locks.Keys;
      ghost var done: set<Id> := {};
      NothingDone(w);
      while rest != {}
        invariant done !! rest && done + rest == w.locks.Keys
        invariant Snapshot() == w.AfterLocks(done)
        decreases rest
      {
        var id :| id in rest;
        LocksOneMore(w, done, id);
        OneLock(Snapshot(), id);
        if id !in records {
          var lock := TryLock(id);
          if lock.Some? {
            Release(lock.value);
            locks := locks - {id};
          }
        }
        rest, done := rest - {id}, done + {id};
      }
      assert done == w.locks.Keys;
    }

    /** `CleanOrphans`. */
    method CleanOrphans() returns (reclaimed: nat)
      modifies this
      ensures records == old(Snapshot()).Swept().records && locks == old(Snapshot()).Swept().locks
      ensures old(Snapshot()).OneDirEach() ==>
                Snapshot() == old(Snapshot()).Swept() && reclaimed == old(Snapshot()).Reclaimed()
    {
      ghost var w := Snapshot();
      var fromRecords := SweepRecords();
      if w.OneDirEach() {
        Pass1KeepsOneDir(w);
      }
      var fromDirs := SweepDataDirectories();
      SameStaleLocks(w.Pass1().Pass2(), Snapshot());
      SweepStaleLocks();
      reclaimed := fromRecords + fromDirs;
    }
  }

  /** Pass 3 looks at records and locks alone. */
  lemma SameStaleLocks(w: World, v: World)
    requires v.records == w.records && v.locks == w.locks && v.held == w.held
    ensures v.Pass3().locks == w.Pass3().locks && v.Pass3().records == w.Pass3().records
  {
    assert forall id :: v.Stale(id) <==> w.Stale(id);
  }

  lemma LocksOfOneMoreDir(w: World, v: World, done: set<Id>, id: Id)
    requires id !in done && v.locks == w.AfterDirs(done).locks
    requires v.records == w.records && v.held == w.held && Library(id) in v.dirs && Library(id) in w.dirs
    ensures w.AfterDirs(done + {id}).locks == v.AfterDirs({id}).locks
  {
    assert id in w.locks ==> (v.Stranded(id) <==> w.Stranded(id));
  }

  lemma NothingDone(w: World)
    ensures w.AfterRecords({}) == w && w.AfterDirs({}) == w && w.AfterLocks({}) == w
  {
    assert w.AfterRecords({}).records == w.records && w.AfterRecords({}).locks == w.locks;
    assert w.AfterRecords({}).dirs == w.dirs && w.AfterRecords({}).procs == w.procs;
    assert w.AfterDirs({}).locks == w.locks && w.AfterDirs({}).dirs == w.dirs && w.AfterDirs({}).procs == w.procs;
    assert w.AfterLocks({}).locks == w.locks;
  }

  lemma OneLock(w: World, id: Id)
    ensures w.AfterLocks({id}) == if w.Stale(id) then w.(locks := w.locks - {id}) else w
  {
    var v := w.AfterLocks({id});
    if w.Stale(id) {
      assert v.locks == w.locks - {id};
    } else {
      assert v.locks == w.locks;
    }
  }

  lemma Pass1KeepsOneDir(w: World)
    requires w.OneDirEach()
    ensures w.Pass1().OneDirEach()
  {
  }
}
