/** What an undisturbed sweep makes of an owner that was killed (registry.go:27-35,
    registry.go:207-256, embedded_tikv.go:134-180, embedded_tikv.go:344-404): the world a sweep of
    one registry sees, at any point of any run of `Protocol`. */
module Recovery {
  import opened Registry
  import opened Wrappers
  import opened Protocol
  import opened Safety
  import Sweep
  import SweepLaws
  import LiveClusters

  function LibraryDirs(s: State): (dirs: set<DataPath>) {
    set id | id in s.clusters && s.clusters[id].dir.Some? :: Library(id)
  }

  function RecordsOf(s: State, registry: nat): map<Id, File> {
    map id | id in s.clusters && s.clusters[id].registry == registry && s.clusters[id].record.Some? ::
      Parsed(s.clusters[id].record.value)
  }

  function LocksOf(s: State, registry: nat): map<Id, Inode> {
    map id | id in s.clusters && s.clusters[id].registry == registry && s.clusters[id].lock.Some? ::
      Inode(id, s.clusters[id].lock.value)
  }

  function Held(s: State): set<Inode> {
    set id, n | id in s.clusters && n in s.clusters[id].held :: Inode(id, n)
  }

  function DirsOf(s: State): map<DataPath, nat> {
    map path | path in LibraryDirs(s) :: s.clusters[path.id].dir.value
  }

  /** What a sweep of `registry`, run by process `self`, finds when it starts. */
  function Seen(s: State, registry: nat, self: Pid): Sweep.World {
    Sweep.World(RecordsOf(s, registry), LocksOf(s, registry), Held(s), DirsOf(s),
                map pid | pid in s.procs :: s.procs[pid].process, {}, s.now, self)
  }

  /** Nobody is in the middle of a sweep. */
  ghost predicate Quiet(s: State) { forall k | k in s.sweepers :: s.sweepers[k].at.Idle? }

  /** Every world a sweep sees meets what the exact effect of a sweep asks for. */
  lemma SeenIsOrderly(s: State, registry: nat, self: Pid)
    requires Inv(s)
    ensures Seen(s, registry, self).OneDirEach() && SweepLaws.OwnPaths(Seen(s, registry, self))
  {
    var w := Seen(s, registry, self);
    forall pid, x, y | pid in w.procs && Library(x) in w.procs[pid].paths && Library(y) in w.procs[pid].paths
      ensures x == y
    {
      assert ProcInv(s, pid) && s.procs[pid].Names(Library(x)) && s.procs[pid].Names(Library(y));
    }
    forall id | id in w.records && w.records[id].record.dataPath.Library? ensures w.records[id].record.dataPath.id == id {
      assert ClusterInv(id, s.clusters[id]);
    }
  }

  /** Nothing that bears the id is left. */
  ghost predicate NothingLeft(w: Sweep.World, id: Id) {
    && id !in w.records && id !in w.locks && Library(id) !in w.dirs
    && forall pid | pid in w.procs :: Library(id) !in w.procs[pid].paths
  }

  /** An owner that is gone, with a library directory or none yet. */
  ghost predicate Dead(s: State, id: Id) {
    && id in s.clusters && s.clusters[id].owner.phase.Gone? && !s.clusters[id].owner.memory.dataPath.Caller?
  }

  /** Such an owner no watchdog has cleaned up after. */
  ghost predicate Orphan(s: State, id: Id) { Dead(s, id) && !s.clusters[id].dogged }

  lemma NobodyHolds(s: State, registry: nat, self: Pid, id: Id)
    requires Inv(s) && Quiet(s) && Dead(s, id)
    ensures !Seen(s, registry, self).Held(id)
  {
    var c := s.clusters[id];
    assert ClusterInv(id, c) && HolderInv(s, id);
    assert forall n :: n !in c.held;
  }

  /** A server of a dead owner is killed with its record. */
  lemma ServersAreDoomed(s: State, self: Pid, id: Id, pid: Pid)
    requires Inv(s) && Dead(s, id) && pid in s.procs && pid != self && Library(id) in s.procs[pid].process.paths
    ensures !s.clusters[id].dogged ==> s.clusters[id].record.Some?
    ensures Seen(s, s.clusters[id].registry, self).Reclaims(id) ==> pid in Seen(s, s.clusters[id].registry, self).Doomed(id)
  {
    assert ProcInv(s, pid) && ClusterInv(id, s.clusters[id]) && s.procs[pid].Names(Library(id));
    var w := Seen(s, s.clusters[id].registry, self);
    if w.Reclaims(id) {
      assert pid in w.Using(Library(id));
    }
  }

  /** What a sweep can reclaim without the help of age: a record with its lock path; or, without a
      record, a directory with its lock path, or one that no process keeps in use. */
  ghost predicate Recoverable(w: Sweep.World, id: Id) {
    if id in w.records then id in w.locks
    else (id in w.locks && Library(id) in w.dirs) || !InUse(w, id)
  }

  /** Some process names the directory that no dead record lists for a caller's. */
  ghost predicate InUse(w: Sweep.World, id: Id) {
    exists pid | pid in w.procs :: Library(id) in w.procs[pid].paths && !SweepLaws.DoomedForCaller(w, pid)
  }

  /** Crash recovery: run once the directory is old, a sweep leaves nothing of a dead owner,
      whatever watchdogs and sweepers did before, if and only if what is left is recoverable. */
  lemma CrashRecovery(s: State, id: Id, self: Pid)
    requires Inv(s) && Quiet(s) && Dead(s, id) && self !in s.procs
    requires s.clusters[id].dir.Some? ==> s.now - s.clusters[id].dir.value >= GRACE
    ensures var w := Seen(s, s.clusters[id].registry, self);
            NothingLeft(w.Swept(), id) <==> Recoverable(w, id)
  {
    var w := Seen(s, s.clusters[id].registry, self);
    NobodyHolds(s, s.clusters[id].registry, self, id);
    SeenIsOrderly(s, s.clusters[id].registry, self);
    SweepLaws.RecordsAndLocks(w, id);
    if id in w.records {
      if id in w.locks {
        RecordRecovery(s, id, self);
      }
    } else {
      SweepLaws.UsedAfterPass1(w, id);
      ServersLeft(w, id);
      DirectoryLeft(w, id);
    }
  }

  /** With record and lock path there, nothing survives. */
  lemma RecordRecovery(s: State, id: Id, self: Pid)
    requires Inv(s) && Quiet(s) && Dead(s, id) && self !in s.procs
    requires s.clusters[id].record.Some? && s.clusters[id].lock.Some?
    requires s.clusters[id].dir.Some? ==> s.now - s.clusters[id].dir.value >= GRACE
    ensures NothingLeft(Seen(s, s.clusters[id].registry, self).Swept(), id)
  {
    var w := Seen(s, s.clusters[id].registry, self);
    NobodyHolds(s, s.clusters[id].registry, self, id);
    forall pid | pid in w.procs && Library(id) in w.procs[pid].paths ensures SweepLaws.DoomedByDead(w, pid) {
      ServersAreDoomed(s, self, id, pid);
      assert id in w.records.Keys && pid in w.Doomed(id);
      SweepLaws.KilledSpelled(w, pid);
    }
    DeadIdGoes(w, id);
  }

  /** Nothing is left of a dead record whose directory is old and used only by processes that dead
      records doom. */
  lemma DeadIdGoes(w: Sweep.World, id: Id)
    requires SweepLaws.Dead(w, id)
    requires Library(id) in w.dirs ==> w.now - w.dirs[Library(id)] >= GRACE
    requires forall pid | pid in w.procs && Library(id) in w.procs[pid].paths :: SweepLaws.DoomedByDead(w, pid)
    ensures NothingLeft(w.Swept(), id)
  {
    SweepLaws.RecordsAndLocks(w, id);
    SweepLaws.Directories(w, id);
    forall pid | pid in w.Swept().procs ensures Library(id) !in w.Swept().procs[pid].paths {
      SweepLaws.Processes(w, pid);
    }
  }

  /** Without a record, the directory's processes survive exactly if the directory is not stranded. */
  lemma ServersLeft(w: Sweep.World, id: Id)
    requires SweepLaws.OwnPaths(w) && w.OneDirEach() && id !in w.records && w.self !in w.procs
    ensures (forall pid | pid in w.Swept().procs :: Library(id) !in w.Swept().procs[pid].paths) <==>
              w.Pass1().Stranded(id) || !w.Pass1().Used(id)
  {
    var w1 := w.Pass1();
    assert w.Swept().procs == w1.Pass2().procs;
    forall pid | pid in w1.procs && Library(id) in w1.procs[pid].paths
      ensures pid in w1.Pass2().procs <==> !w1.Stranded(id)
    {
      if w1.Stranded(id) {
        assert id in w1.DirIds() && pid in w1.Using(Library(id));
        assert w1.KilledIn(w1.DirIds(), pid);
      }
      assert forall y | pid in w1.Using(Library(y)) :: y == id;
    }
    if w1.Used(id) && !w1.Stranded(id) {
      var pid :| pid in w1.procs && Library(id) in w1.procs[pid].paths;
      assert pid in w.Swept().procs;
    }
  }

  /** Without a record, an old directory survives exactly if it has no lock path and is in use. */
  lemma DirectoryLeft(w: Sweep.World, id: Id)
    requires SweepLaws.OwnPaths(w) && id !in w.records && !w.Held(id)
    requires Library(id) in w.dirs ==> w.now - w.dirs[Library(id)] >= GRACE
    ensures Library(id) in w.dirs ==> (Library(id) in w.Swept().dirs <==> id !in w.locks && w.Pass1().Used(id))
    ensures Library(id) !in w.dirs ==> Library(id) !in w.Swept().dirs
    ensures w.Pass1().Stranded(id) <==> Library(id) in w.dirs && (id in w.locks || !w.Pass1().Used(id))
  {
    forall x | x in w.records ensures Library(id) !in w.Removed(x) {
    }
    assert !w.RemovedFor(w.records.Keys, Library(id));
    if Library(id) in w.dirs {
      SweepLaws.Directories(w, id);
      SweepLaws.RecordsAndLocks(w, id);
    }
  }

  /** Where no watchdog interfered only the record without a lock path is beyond recovery; that
      takes a third pass's late unlink. */
  lemma OrphanRecovery(s: State, id: Id, self: Pid)
    requires Inv(s) && Quiet(s) && Orphan(s, id) && self !in s.procs
    requires s.clusters[id].dir.Some? ==> s.now - s.clusters[id].dir.value >= GRACE
    ensures var c := s.clusters[id];
            && (NothingLeft(Seen(s, c.registry, self).Swept(), id) <==> !(c.record.Some? && c.lock.None?))
            && (c.record.Some? && c.lock.None? ==> c.unlinked)
  {
    var c := s.clusters[id];
    var w := Seen(s, c.registry, self);
    CrashRecovery(s, id, self);
    assert ClusterInv(id, c);
    if InUse(w, id) {
      var pid :| pid in w.procs && Library(id) in w.procs[pid].paths;
      ServersAreDoomed(s, self, id, pid);
    }
  }

  // -------- Any death, any time --------

  /** No watchdog cleans up after `id` in these steps. */
  ghost predicate NoDog(steps: seq<Step>, id: Id) { forall step | step in steps :: !DogStep(step, id) }

  predicate DogStep(step: Step, id: Id) { step.Own? && step.id == id && step.step.Dog? }

  /** An owner killed at any step of any run: whatever happens afterwards but for watchdogs, a sweep
      that starts when no other is under way and the directory is old leaves nothing of it, exactly
      if its record does not stand without a lock path by then. */
  lemma KilledAtAnyStep(steps: seq<Step>, id: Id, more: seq<Step>, self: Pid)
    requires Legal(EMPTY, steps)
    requires var s := Exec(EMPTY, steps);
             id in s.clusters && !s.clusters[id].owner.phase.Gone? && !s.clusters[id].owner.memory.dataPath.Caller?
    requires Legal(Apply(Exec(EMPTY, steps), Own(id, Die)), more) && NoDog(more, id)
    requires var u := Exec(Apply(Exec(EMPTY, steps), Own(id, Die)), more);
             && Quiet(u) && self !in u.procs
             && (id in u.clusters && u.clusters[id].dir.Some? ==> u.now - u.clusters[id].dir.value >= GRACE)
    ensures var u := Exec(Apply(Exec(EMPTY, steps), Own(id, Die)), more);
            && id in u.clusters
            && var c := u.clusters[id];
            && (NothingLeft(Seen(u, c.registry, self).Swept(), id) <==> !(c.record.Some? && c.lock.None?))
            && (c.record.Some? && c.lock.None? ==> c.unlinked)
  {
    LiveClusters.EveryRun(steps);
    var s := Exec(EMPTY, steps);
    var t := Apply(s, Own(id, Die));
    StepKeeps(s, Own(id, Die));
    RunKeeps(t, more);
    assert ClusterInv(id, s.clusters[id]);
    OrphanStays(t, more, id);
    OrphanRecovery(Exec(t, more), id, self);
  }

  lemma {:induction false} OrphanStays(s: State, steps: seq<Step>, id: Id)
    requires Orphan(s, id) && Legal(s, steps) && NoDog(steps, id)
    ensures Orphan(Exec(s, steps), id)
    decreases |steps|
  {
    if steps != [] {
      assert !DogStep(steps[0], id);
      StepLeavesOrphan(s, steps[0], id);
      OrphanStays(Apply(s, steps[0]), steps[1..], id);
    }
  }

  lemma StepLeavesOrphan(s: State, step: Step, id: Id)
    requires Orphan(s, id) && Enabled(s, step) && !DogStep(step, id)
    ensures Orphan(Apply(s, step), id)
  {
    if step.Advance? {
      AdvanceLeavesOrphan(s, step.k, id);
    } else if step.Kill? {
      KillLeavesOrphan(s, step.k, step.pid, id);
    } else if step.Own? {
      OwnerLeavesOrphan(s, step.id, step.step, id);
    }
  }

  lemma AdvanceLeavesOrphan(s: State, k: Agent, id: Id)
    requires Orphan(s, id) && k in s.sweepers && s.sweepers[k].id in s.clusters
    ensures Orphan(Advanced(s, k), id)
  {
    var w := s.sweepers[k];
    CallLeavesOwner(s, s.clusters[w.id], k, w);
  }

  lemma KillLeavesOrphan(s: State, k: Agent, pid: Pid, id: Id)
    requires Orphan(s, id) && k in s.sweepers
    ensures Orphan(KillOne(s, k, pid), id)
  {
    KillChanges(s, k, pid);
  }

  lemma OwnerLeavesOrphan(s: State, other: Id, step: OwnerStep, id: Id)
    requires Orphan(s, id) && other in s.clusters && OwnerCan(s, other, s.clusters[other], step) && !DogStep(Own(other, step), id)
    ensures Orphan(Owned(s, other, step), id)
  {
    GoneOnlyDogs(s, other, s.clusters[other], step);
  }

  // -------- Beyond recovery --------

  /** A dead owner's record stands without a lock path, and no sweeper is past the point at which
      it would notice. */
  ghost predicate Stuck(s: State, id: Id) {
    && id in s.clusters
    && var c := s.clusters[id];
    && c.owner.phase.Gone? && c.record.Some? && c.lock.None?
    && forall k | k in s.sweepers && s.sweepers[k].id == id && !s.sweepers[k].at.Idle? ::
         var at := s.sweepers[k].at;
         if c.Ours(s.sweepers[k]) then at.OpenLock1? || at.StatRecord2? || at.StatRecord3? else at.Second()
  }

  /** Such a record is there for good: in no run whatsoever does any sweep remove it, and only a
      watchdog could. */
  lemma {:induction false} StuckForever(s: State, steps: seq<Step>, id: Id)
    requires Inv(s) && Stuck(s, id) && Legal(s, steps) && NoDog(steps, id)
    ensures Stuck(Exec(s, steps), id) && Exec(s, steps).clusters[id].record == s.clusters[id].record
    decreases |steps|
  {
    if steps != [] {
      assert !DogStep(steps[0], id);
      StepLeavesStuck(s, steps[0], id);
      StepKeeps(s, steps[0]);
      StuckForever(Apply(s, steps[0]), steps[1..], id);
    }
  }

  /** Where nobody is sweeping, a record without a lock path is stuck. */
  lemma QuietIsStuck(s: State, id: Id)
    requires Quiet(s) && id in s.clusters
    requires s.clusters[id].owner.phase.Gone? && s.clusters[id].record.Some? && s.clusters[id].lock.None?
    ensures Stuck(s, id)
  {
  }

  lemma StepLeavesStuck(s: State, step: Step, id: Id)
    requires Inv(s) && Stuck(s, id) && Enabled(s, step) && !DogStep(step, id)
    ensures Stuck(Apply(s, step), id) && Apply(s, step).clusters[id].record == s.clusters[id].record
  {
    if step.Advance? {
      AdvanceLeavesStuck(s, step.k, id);
    } else if step.Kill? {
      KillLeavesStuck(s, step.k, step.pid, id);
    } else if step.Own? {
      OwnerLeavesStuck(s, step.id, step.step, id);
    }
  }

  lemma KillLeavesStuck(s: State, k: Agent, pid: Pid, id: Id)
    requires Stuck(s, id) && Enabled(s, Kill(k, pid))
    ensures Stuck(KillOne(s, k, pid), id) && KillOne(s, k, pid).clusters[id].record == s.clusters[id].record
  {
    KillChanges(s, k, pid);
  }

  lemma OwnerLeavesStuck(s: State, other: Id, step: OwnerStep, id: Id)
    requires Stuck(s, id) && other in s.clusters && OwnerCan(s, other, s.clusters[other], step) && !DogStep(Own(other, step), id)
    ensures Stuck(Owned(s, other, step), id) && Owned(s, other, step).clusters[id] == s.clusters[id]
  {
    GoneOnlyDogs(s, other, s.clusters[other], step);
  }

  lemma GoneOnlyDogs(s: State, id: Id, c: Cluster, step: OwnerStep)
    requires OwnerCan(s, id, c, step)
    ensures c.owner.phase.Gone? ==> step.Dog?
  {
  }

  lemma AdvanceLeavesStuck(s: State, k: Agent, id: Id)
    requires Inv(s) && Stuck(s, id) && Enabled(s, Advance(k))
    ensures Stuck(Advanced(s, k), id) && Advanced(s, k).clusters[id].record == s.clusters[id].record
  {
    var w := s.sweepers[k];
    AdvancedAsOne(s, k);
    if w.id == id {
      CallLeavesStuck(s, s.clusters[id], k, w);
    }
  }

  lemma CallLeavesStuck(s: State, c: Cluster, k: Agent, w: Sweeper)
    requires c.owner.phase.Gone? && c.record.Some? && c.lock.None?
    requires if c.Ours(w) then w.at.OpenLock1? || w.at.StatRecord2? || w.at.StatRecord3? else w.at.Second()
    ensures var (d, at) := Call(s, c, k, w);
            && d.registry == c.registry && d.owner == c.owner && d.record == c.record && d.lock == c.lock
            && (at.Idle? || (!c.Ours(w) && at.Second()))
  {
  }

  // -------- A directory in use --------

  /** A sweeper at `at` does not get to kill or remove for an entry without record and lock that
      somebody uses. */
  predicate Harmless(at: At) {
    && !at.KillRecorded? && !at.Enumerate1? && !at.KillUsing1? && !at.RemoveDir1?
    && !at.Flock2? && !at.Release2? && !at.Enumerate2? && !at.KillUsing2? && !at.RemoveDir2?
  }

  /** A server of a dead owner runs in a directory that no record and no lock path speak for, and
      no sweeper has gone so far as to reclaim it. */
  ghost predicate Occupied(s: State, id: Id, pid: Pid) {
    && id in s.clusters
    && var c := s.clusters[id];
    && c.owner.phase.Gone? && c.record.None? && c.lock.None? && c.dir.Some?
    && pid in s.procs && s.procs[pid].home == id && s.procs[pid].Names(Library(id))
    && forall k | k in s.sweepers && s.sweepers[k].id == id :: Harmless(s.sweepers[k].at)
  }

  /** Nothing but sweeps happens to it: the server does not exit, no watchdog steps in, and nobody
      kills it for a caller's directory. */
  ghost predicate LeftToSweeps(s: State, steps: seq<Step>, id: Id, pid: Pid)
    requires Legal(s, steps)
    decreases |steps|
  {
    steps != [] ==>
      && LeavesToSweeps(s, steps[0], id, pid)
      && LeftToSweeps(Apply(s, steps[0]), steps[1..], id, pid)
  }

  predicate LeavesToSweeps(s: State, step: Step, id: Id, pid: Pid) {
    step != Exit(pid) && !DogStep(step, id) && !LiveClusters.KilledForCaller(s, step, pid)
  }

  /** Then server and directory are there for good, whatever sweeps of whatever registries run. */
  lemma {:induction false} OccupiedForever(s: State, steps: seq<Step>, id: Id, pid: Pid)
    requires Inv(s) && Occupied(s, id, pid) && Legal(s, steps) && LeftToSweeps(s, steps, id, pid)
    ensures Occupied(Exec(s, steps), id, pid)
    decreases |steps|
  {
    if steps != [] {
      StepLeavesOccupied(s, steps[0], id, pid);
      StepKeeps(s, steps[0]);
      OccupiedForever(Apply(s, steps[0]), steps[1..], id, pid);
    }
  }

  lemma StepLeavesOccupied(s: State, step: Step, id: Id, pid: Pid)
    requires Inv(s) && Occupied(s, id, pid) && Enabled(s, step) && LeavesToSweeps(s, step, id, pid)
    ensures Occupied(Apply(s, step), id, pid)
  {
    if step.Advance? {
      AdvanceLeavesOccupied(s, step.k, id, pid);
    } else if step.Kill? {
      KillLeavesOccupied(s, step.k, step.pid, id, pid);
    } else if step.Own? {
      OwnerLeavesOccupied(s, step.id, step.step, id, pid);
    }
  }

  lemma OwnerLeavesOccupied(s: State, other: Id, step: OwnerStep, id: Id, pid: Pid)
    requires Occupied(s, id, pid) && other in s.clusters && OwnerCan(s, other, s.clusters[other], step)
    requires !DogStep(Own(other, step), id)
    ensures Occupied(Owned(s, other, step), id, pid)
  {
    GoneOnlyDogs(s, other, s.clusters[other], step);
  }

  lemma AdvanceLeavesOccupied(s: State, k: Agent, id: Id, pid: Pid)
    requires Inv(s) && Occupied(s, id, pid) && Enabled(s, Advance(k))
    ensures Occupied(Advanced(s, k), id, pid)
  {
    var w := s.sweepers[k];
    AdvancedAsOne(s, k);
    if w.id == id {
      assert pid in s.Using(Library(id));
      CallLeavesOccupied(s, s.clusters[id], k, w);
    }
  }

  lemma CallLeavesOccupied(s: State, c: Cluster, k: Agent, w: Sweeper)
    requires c.record.None? && c.lock.None? && Harmless(w.at) && s.Using(Library(w.id)) != {}
    ensures var d := AfterCall(s, c, k, w);
            d.owner == c.owner && d.record.None? && d.lock.None? && d.dir == c.dir && Harmless(Call(s, c, k, w).1)
  {
    if w.at.First() {
      CallLeavesOwner(s, c, k, w);
    }
  }

  lemma KillLeavesOccupied(s: State, k: Agent, p: Pid, id: Id, pid: Pid)
    requires Inv(s) && Occupied(s, id, pid) && Enabled(s, Kill(k, p)) && !LiveClusters.KilledForCaller(s, Kill(k, p), pid)
    ensures Occupied(KillOne(s, k, p), id, pid)
  {
    KillChanges(s, k, p);
    if p == pid {
      NotForLibrary(s, k, id, pid);
    }
  }

  /** Sweepers kill for the library directory of their own entry alone. */
  lemma NotForLibrary(s: State, k: Agent, id: Id, pid: Pid)
    requires Inv(s) && Occupied(s, id, pid) && Enabled(s, Kill(k, pid))
    ensures s.sweepers[k].Kills(pid, s.procs[pid]) ==> s.sweepers[k].Target().Caller?
  {
    assert SweepInv(s, k) && ProcInv(s, pid) && ClusterInv(s.sweepers[k].id, s.clusters[s.sweepers[k].id]);
  }
}
