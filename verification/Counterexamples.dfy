/** Runs of `Protocol` in which a promise of the documentation fails (registry.go:91-93,
    registry.go:207-210, registry.go:286-290, registry.go:341-353). */
module Counterexamples {
  import opened Registry
  import opened Wrappers
  import opened Protocol
  import Recovery
  import Safety

  // -------- Runs --------

  ghost predicate Leads(s: State, t: State) { exists steps :: Legal(s, steps) && Exec(s, steps) == t }

  lemma Stop(s: State)
    ensures Leads(s, s)
  {
    assert Legal(s, []) && Exec(s, []) == s;
  }

  lemma StepThen(s: State, step: Step, t: State)
    requires Enabled(s, step) && Leads(Apply(s, step), t)
    ensures Leads(s, t)
  {
    var rest :| Legal(Apply(s, step), rest) && Exec(Apply(s, step), rest) == t;
    var steps := [step] + rest;
    assert steps[0] == step && steps[1..] == rest;
    assert Legal(s, steps) && Exec(s, steps) == t;
  }

  // -------- A record without a lock --------

  /** `openRecord` says that no record is ever visible without a held lock behind it. A third pass
      that probed the lock file before its owner locked it unlinks it after the record is
      published. */
  lemma RecordWithoutLock(id: Id)
    ensures exists s :: Leads(EMPTY, s) && RecordAlone(s, id)
  {
    ProbedBeforeOpen(id);
    var s :| Leads(EMPTY, s) && Probed(s, id);
    CanPublish(s, id);
    var t :| Leads(s, t) && Ready(s, t, id);
    UnlinkLate(t, id);
    var u :| Leads(t, u) && RecordAlone(u, id);
    Follow(s, t, u);
    Follow(EMPTY, s, u);
  }

  ghost predicate RecordAlone(s: State, id: Id) {
    && id in s.clusters && s.clusters[id].Live() && s.clusters[id].record.Some? && s.clusters[id].lock.None?
    && !s.clusters[id].dogged && Recovery.Quiet(s)
  }

  lemma UnlinkLate(s: State, id: Id)
    requires s.sweepers == map[0 := Sweeper(0, id, Unlink3)]
    requires id in s.clusters && s.clusters[id].Live() && s.clusters[id].record.Some? && !s.clusters[id].dogged
    ensures exists t :: Leads(s, t) && RecordAlone(t, id)
  {
    var t := Apply(s, Advance(0));
    Stop(t);
    StepThen(s, Advance(0), t);
    assert RecordAlone(t, id);
  }

  ghost predicate Probed(s: State, id: Id) {
    && s.sweepers == map[0 := Sweeper(0, id, Unlink3)]
    && id in s.clusters && s.clusters[id] == Claimant(0)
  }

  /** A third pass can probe a lock file its owner has created and not yet locked. */
  lemma ProbedBeforeOpen(id: Id)
    ensures exists s :: Leads(EMPTY, s) && Probed(s, id)
  {
    var s1 := Apply(EMPTY, Claim(id, 0));
    var s2 := Apply(s1, Join(0, 0));
    var s3 := Apply(s2, List3(0, id));
    ProbeListed(s3, id);
    var s4 :| Leads(s3, s4) && Probed(s4, id);
    StepThen(s2, List3(0, id), s4);
    StepThen(s1, Join(0, 0), s4);
    StepThen(EMPTY, Claim(id, 0), s4);
  }

  lemma ProbeListed(s: State, id: Id)
    requires s.sweepers == map[0 := Sweeper(0, id, StatRecord3)] && id in s.clusters && s.clusters[id] == Claimant(0)
    ensures exists t :: Leads(s, t) && Probed(t, id)
  {
    var s1 := Apply(s, Advance(0));
    assert s1.sweepers[0].at == OpenLock3;
    var s2 := Apply(s1, Advance(0));
    assert s2.sweepers[0].at == Flock3(0);
    ProbeOne(s2, id);
    var t :| Leads(s2, t) && Probed(t, id);
    StepThen(s1, Advance(0), t);
    StepThen(s, Advance(0), t);
  }

  lemma ProbeOne(s: State, id: Id)
    requires s.sweepers == map[0 := Sweeper(0, id, Flock3(0))] && id in s.clusters && s.clusters[id] == Claimant(0)
    ensures exists t :: Leads(s, t) && Probed(t, id)
  {
    var s1 := Apply(s, Advance(0));
    assert s1.sweepers[0].at == Release3(0);
    var s2 := Apply(s1, Advance(0));
    assert s2.clusters[id].held == map[];
    Stop(s2);
    StepThen(s1, Advance(0), s2);
    StepThen(s, Advance(0), s2);
    assert Probed(s2, id);
  }

  ghost predicate Ready(s: State, t: State, id: Id) {
    && t.sweepers == s.sweepers && id in t.clusters
    && t.clusters[id].Live() && t.clusters[id].record.Some? && t.clusters[id].lock == Some(0) && !t.clusters[id].dogged
  }

  /** An owner that has claimed its id can go on to publish its first record. */
  lemma CanPublish(s: State, id: Id)
    requires id in s.clusters && s.clusters[id].owner == Claimant(0).owner
    requires s.clusters[id].lock == Some(0) && s.clusters[id].held == map[] && !s.clusters[id].dogged
    ensures exists t :: Leads(s, t) && Ready(s, t, id)
  {
    var s1 := Apply(s, Own(id, Open));
    var s2 := Apply(s1, Own(id, Flock));
    var s3 := Apply(s2, Own(id, WriteTemp));
    var s4 := Apply(s3, Own(id, Rename));
    Stop(s4);
    StepThen(s3, Own(id, Rename), s4);
    StepThen(s2, Own(id, WriteTemp), s4);
    StepThen(s1, Own(id, Flock), s4);
    StepThen(s, Own(id, Open), s4);
    assert Ready(s, s4, id);
  }

  lemma Follow(s: State, t: State, u: State)
    requires Leads(s, t) && Leads(t, u)
    ensures Leads(s, u)
  {
    var steps :| Legal(s, steps) && Exec(s, steps) == t;
    FollowSteps(s, steps, u);
  }

  lemma {:induction false} FollowSteps(s: State, steps: seq<Step>, u: State)
    requires Legal(s, steps) && Leads(Exec(s, steps), u)
    ensures Leads(s, u)
    decreases |steps|
  {
    if steps != [] {
      FollowSteps(Apply(s, steps[0]), steps[1..], u);
      StepThen(s, steps[0], u);
    }
  }

  /** If that owner dies without a watchdog, its record outlives it without a lock path, and is
      stuck: `Recovery.StuckForever`. */
  lemma OrphanWithoutLock(id: Id)
    ensures exists s :: Leads(EMPTY, s) && OrphanAlone(s, id) && Recovery.Stuck(s, id)
  {
    RecordWithoutLock(id);
    var s :| Leads(EMPTY, s) && RecordAlone(s, id);
    var t := Owned(s, id, Die);
    Stop(t);
    StepThen(s, Own(id, Die), t);
    Follow(EMPTY, s, t);
    assert OrphanAlone(t, id);
    Recovery.QuietIsStuck(t, id);
  }

  ghost predicate OrphanAlone(s: State, id: Id) {
    && id in s.clusters
    && var c := s.clusters[id];
    c.owner.phase.Gone? && !c.dogged && c.record.Some? && c.lock.None?
  }

  // -------- Bringing up a cluster --------

  /** A live cluster whose record names its directory. */
  function Up(registry: nat, path: DataPath, now: nat): Cluster {
    var record := Record(path, path.Library?, []);
    Cluster(registry, Owner(Locked(0), record, None, Some(record), true, false, {}), Some(0), 1, map[0 := ByOwner],
            Some(record), if path.Library? then Some(now) else None, false, false, false, {})
  }

  /** One step of an owner other than a spawn. */
  lemma OwnerStepTo(s: State, id: Id, c: Cluster, step: OwnerStep)
    requires OwnerCan(s.Put(id, c), id, c, step) && !step.Spawn?
    ensures Leads(s.Put(id, c), s.Put(id, OwnerDoes(c, step, s.now)))
  {
    var t := s.Put(id, OwnerDoes(c, step, s.now));
    assert Owned(s.Put(id, c), id, step) == t;
    Stop(t);
    StepThen(s.Put(id, c), Own(id, step), t);
  }

  /** Writing the record and renaming it into place. */
  lemma SaveTo(s: State, id: Id, c: Cluster)
    requires c.Live() && c.owner.pending.None?
    ensures Leads(s.Put(id, c), s.Put(id, c.(record := Some(c.owner.memory), owner := c.owner.(saved := Some(c.owner.memory)))))
  {
    var c1 := OwnerDoes(c, WriteTemp, s.now);
    OwnerStepTo(s, id, c, WriteTemp);
    OwnerStepTo(s, id, c1, Rename);
    Follow(s.Put(id, c), s.Put(id, c1), s.Put(id, OwnerDoes(c1, Rename, s.now)));
  }

  /** `openRecord` without trouble. */
  function Claimed(registry: nat): Cluster {
    Claimant(registry).(held := map[0 := ByOwner], owner := Claimant(registry).owner.(phase := Locked(0)))
  }

  lemma LockTo(s: State, id: Id, registry: nat)
    requires id !in s.clusters
    ensures Leads(s, s.Put(id, Claimed(registry)))
  {
    var c := Claimant(registry);
    var c1 := OwnerDoes(c, Open, s.now);
    OwnerStepTo(s, id, c, Open);
    OwnerStepTo(s, id, c1, Flock);
    assert OwnerDoes(c1, Flock, s.now) == Claimed(registry);
    Follow(s.Put(id, c), s.Put(id, c1), s.Put(id, Claimed(registry)));
    StepThen(s, Claim(id, registry), s.Put(id, Claimed(registry)));
  }

  lemma BringUp(s: State, id: Id, registry: nat, path: DataPath)
    requires id !in s.clusters && (path == Library(id) || path.Caller?)
    ensures Leads(s, s.Put(id, Up(registry, path, s.now)))
  {
    var c := Claimed(registry);
    var c1 := c.(record := Some(NEW_RECORD), owner := c.owner.(saved := Some(NEW_RECORD)));
    LockTo(s, id, registry);
    SaveTo(s, id, c);
    Follow(s, s.Put(id, c), s.Put(id, c1));
    var c2 := OwnerDoes(c1, MakeDir(path), s.now);
    OwnerStepTo(s, id, c1, MakeDir(path));
    Follow(s, s.Put(id, c1), s.Put(id, c2));
    SaveTo(s, id, c2);
    Follow(s, s.Put(id, c2), s.Put(id, Up(registry, path, s.now)));
  }

  // -------- A server lost to a recycled pid --------

  const TMP := Caller("/tmp")
  const PID: Pid := 7
  const BINARY := "tikv-server"

  /** The command line of a store names its own directory, the temporary directory above it, and
      its binary. */
  function Store(id: Id): Process { Process({TMP, Library(id)}, {BINARY}) }

  /** A cluster in the caller's directory /tmp whose recorded server has exited and whose owner has
      died: its record still lists the pid. */
  function Dead(registry: nat): Cluster {
    var record := Record(TMP, false, [ServerRecord("tikv-0", PID, BINARY)]);
    Cluster(registry, Owner(Gone, record, None, Some(record), true, false, {}), Some(0), 1, map[],
            Some(record), None, false, false, false, {})
  }

  lemma SpawnTo(s: State, id: Id, c: Cluster, process: Process)
    requires c == Up(c.registry, c.owner.memory.dataPath, s.now) && c.owner.memory.dataPath in process.paths
    requires c.owner.memory.dataPath != NoPath && PID !in s.procs && forall x | Library(x) in process.paths :: x == id
    ensures Leads(s.Put(id, c), Owned(s.Put(id, c), id, Spawn(PID, process, "tikv-0", BINARY)))
  {
    var step := Spawn(PID, process, "tikv-0", BINARY);
    Stop(Owned(s.Put(id, c), id, step));
    StepThen(s.Put(id, c), Own(id, step), Owned(s.Put(id, c), id, step));
  }

  /** The cluster of `Dead` while its owner lives and has recorded its server. */
  function Serving(registry: nat): Cluster {
    Dead(registry).(held := map[0 := ByOwner], owner := Dead(registry).owner.(phase := Locked(0), servers := {PID}))
  }

  lemma SpawnedInTmp(registry: nat, now: nat, process: Process)
    ensures var c := OwnerDoes(Up(registry, TMP, now), Spawn(PID, process, "tikv-0", BINARY), now);
            c.Live() && c.owner.pending.None?
            && c.(record := Some(c.owner.memory), owner := c.owner.(saved := Some(c.owner.memory))) == Serving(registry)
  {
    var c := OwnerDoes(Up(registry, TMP, now), Spawn(PID, process, "tikv-0", BINARY), now);
    assert c.owner.servers == {PID} && c.strayed == {};
    assert c.owner.memory.servers == [ServerRecord("tikv-0", PID, BINARY)];
  }

  lemma DieInTmp(s: State, id: Id, registry: nat)
    requires id !in s.clusters && PID !in s.procs
    ensures Leads(s, s.Put(id, Dead(registry)))
  {
    var process := Process({TMP}, {BINARY});
    var c := Up(registry, TMP, s.now);
    BringUp(s, id, registry, TMP);
    SpawnTo(s, id, c, process);
    var c1 := OwnerDoes(c, Spawn(PID, process, "tikv-0", BINARY), s.now);
    var s1 := s.(procs := s.procs[PID := Proc(id, process)]);
    assert Owned(s.Put(id, c), id, Spawn(PID, process, "tikv-0", BINARY)) == s1.Put(id, c1);
    Follow(s, s.Put(id, c), s1.Put(id, c1));
    SpawnedInTmp(registry, s.now, process);
    SaveTo(s1, id, c1);
    Follow(s, s1.Put(id, c1), s1.Put(id, Serving(registry)));
    ExitAndDie(s, id, registry, process);
    Follow(s, s1.Put(id, Serving(registry)), s.Put(id, Dead(registry)));
  }

  lemma ExitAndDie(s: State, id: Id, registry: nat, process: Process)
    requires PID !in s.procs
    ensures Leads(s.(procs := s.procs[PID := Proc(id, process)]).Put(id, Serving(registry)), s.Put(id, Dead(registry)))
  {
    var c, s1 := Serving(registry), s.(procs := s.procs[PID := Proc(id, process)]).Put(id, Serving(registry));
    var c1 := c.(owner := c.owner.(servers := {}));
    assert c.owner.servers - {PID} == {};
    assert s1.procs - {PID} == s.procs;
    assert Exited(s1, PID) == s.Put(id, c1);
    OwnerStepTo(s, id, c1, Die);
    assert c1.held - {0} == map[];
    assert OwnerDoes(c1, Die, s.now) == Dead(registry);
    StepThen(s1, Exit(PID), s.Put(id, Dead(registry)));
  }

  /** The state before the kill: `victim` is live, and the sweeper is to kill what is recorded
      under the pid its server now has. */
  ghost predicate AboutToKill(s: State, dead: Id, victim: Id) {
    && 0 in s.sweepers && s.sweepers[0].id == dead && s.sweepers[0].at.KillRecorded?
    && s.sweepers[0].at.record == Dead(0).record.value && s.sweepers[0].at.todo == {PID}
    && victim in s.clusters && s.clusters[victim].Live() && s.clusters[victim].Published() && !s.clusters[victim].exposed
    && s.clusters[victim].owner.servers == {PID} && s.clusters[victim].owner.memory.dataPath == Library(victim)
    && PID in s.procs && s.procs[PID] == Proc(victim, Store(victim))
  }

  /** The sweep kills a server of a live cluster with its own library directory: the pid of a dead
      cluster's server was recycled, and the dead cluster's directory is above the live one's. */
  lemma ServerLostToRecycledPid(dead: Id, victim: Id)
    requires dead != victim
    ensures exists s :: Leads(EMPTY, s) && LostNext(s, victim)
  {
    var s1 := EMPTY.Put(dead, Dead(0));
    DieInTmp(EMPTY, dead, 0);
    ServeBeside(s1, victim);
    var s2 := Owned(s1.Put(victim, Up(0, Library(victim), 0)), victim, Spawn(PID, Store(victim), "tikv-0", BINARY));
    Follow(EMPTY, s1, s2);
    SweepUpTo(s2, dead, victim);
    var s3 :| Leads(s2, s3) && AboutToKill(s3, dead, victim);
    Follow(EMPTY, s2, s3);
    KillsServer(s3, dead, victim);
  }

  ghost predicate LostNext(s: State, victim: Id) {
    && victim in s.clusters && s.clusters[victim].Live() && s.clusters[victim].Published() && !s.clusters[victim].exposed
    && PID in s.clusters[victim].owner.servers && PID in s.procs && s.procs[PID].home == victim
    && Enabled(s, Kill(0, PID)) && PID !in Apply(s, Kill(0, PID)).procs
  }

  lemma KillsServer(s: State, dead: Id, victim: Id)
    requires AboutToKill(s, dead, victim)
    ensures LostNext(s, victim)
  {
    var w := s.sweepers[0];
    assert ServerRecord("tikv-0", PID, BINARY) in w.at.record.servers;
    assert w.Kills(PID, s.procs[PID]);
  }

  lemma ServeBeside(s: State, victim: Id)
    requires victim !in s.clusters && PID !in s.procs && s.now == 0
    ensures Leads(s, Owned(s.Put(victim, Up(0, Library(victim), 0)), victim, Spawn(PID, Store(victim), "tikv-0", BINARY)))
  {
    var c := Up(0, Library(victim), 0);
    BringUp(s, victim, 0, Library(victim));
    SpawnTo(s, victim, c, Store(victim));
    Follow(s, s.Put(victim, c), Owned(s.Put(victim, c), victim, Spawn(PID, Store(victim), "tikv-0", BINARY)));
  }

  lemma SweepUpTo(s: State, dead: Id, victim: Id)
    requires dead != victim && s.sweepers == map[] && dead in s.clusters && s.clusters[dead] == Dead(0)
    requires victim in s.clusters && s.clusters[victim] == OwnerDoes(Up(0, Library(victim), 0), Spawn(PID, Store(victim), "tikv-0", BINARY), 0)
    requires PID in s.procs && s.procs[PID] == Proc(victim, Store(victim))
    ensures exists t :: Leads(s, t) && AboutToKill(t, dead, victim)
  {
    var s1 := Apply(s, Join(0, 0));
    var s2 := Apply(s1, List1(0, dead));
    var s3 := Apply(s2, Advance(0));
    assert s3.sweepers[0].at == Flock1(0);
    LockAndRead(s3, dead, victim);
    var t :| Leads(s3, t) && AboutToKill(t, dead, victim);
    StepThen(s2, Advance(0), t);
    StepThen(s1, List1(0, dead), t);
    StepThen(s, Join(0, 0), t);
  }

  lemma LockAndRead(s: State, dead: Id, victim: Id)
    requires dead != victim && 0 in s.sweepers && s.sweepers[0] == Sweeper(0, dead, Flock1(0))
    requires dead in s.clusters && s.clusters[dead] == Dead(0)
    requires victim in s.clusters && s.clusters[victim] == OwnerDoes(Up(0, Library(victim), 0), Spawn(PID, Store(victim), "tikv-0", BINARY), 0)
    requires PID in s.procs && s.procs[PID] == Proc(victim, Store(victim))
    ensures exists t :: Leads(s, t) && AboutToKill(t, dead, victim)
  {
    var s1 := Apply(s, Advance(0));
    assert s1.sweepers[0] == Sweeper(0, dead, ReadRecord(0));
    ReadIt(s1, dead, victim);
    var t :| Leads(s1, t) && AboutToKill(t, dead, victim);
    StepThen(s, Advance(0), t);
  }

  lemma ReadIt(s: State, dead: Id, victim: Id)
    requires dead != victim && 0 in s.sweepers && s.sweepers[0] == Sweeper(0, dead, ReadRecord(0))
    requires dead in s.clusters && s.clusters[dead].registry == 0 && s.clusters[dead].record == Dead(0).record
    requires victim in s.clusters && s.clusters[victim] == OwnerDoes(Up(0, Library(victim), 0), Spawn(PID, Store(victim), "tikv-0", BINARY), 0)
    requires PID in s.procs && s.procs[PID] == Proc(victim, Store(victim))
    ensures exists t :: Leads(s, t) && AboutToKill(t, dead, victim)
  {
    var t := Apply(s, Advance(0));
    assert RecordedPids(Dead(0).record.value) == {PID} by {
      assert ServerRecord("tikv-0", PID, BINARY) in Dead(0).record.value.servers;
    }
    assert {} + {PID} == {PID};
    Stop(t);
    StepThen(s, Advance(0), t);
    assert AboutToKill(t, dead, victim);
  }

  // -------- A live cluster of another registry --------

  /** A sweep of another registry removes the directory of a live cluster that has not changed it
      for the grace period and has no server. */
  lemma ForeignDirectoryLost(id: Id)
    ensures exists s :: Leads(EMPTY, s) && Bereft(s, id)
  {
    var s1 := EMPTY.Put(id, Up(0, Library(id), 0));
    BringUp(EMPTY, id, 0, Library(id));
    var s2 := Apply(s1, Tick(GRACE));
    var s3 := Apply(s2, Join(0, 1));
    var s4 := Apply(s3, List2(0, id));
    LooksOld(s4, id);
    var s5 :| Leads(s4, s5) && Bereft(s5, id);
    StepThen(s3, List2(0, id), s5);
    StepThen(s2, Join(0, 1), s5);
    StepThen(s1, Tick(GRACE), s5);
    Follow(EMPTY, s1, s5);
  }

  ghost predicate Bereft(s: State, id: Id) {
    id in s.clusters && s.clusters[id].Live() && s.clusters[id].owner.made
    && s.clusters[id].owner.memory.dataPath == Library(id) && s.clusters[id].dir.None?
  }

  ghost predicate Watched(s: State, id: Id, at: At) {
    && s.procs == map[] && s.now == GRACE && 0 in s.sweepers && s.sweepers[0] == Sweeper(1, id, at)
    && id in s.clusters && s.clusters[id].(exposed := false) == Up(0, Library(id), 0)
  }

  lemma LooksOld(s: State, id: Id)
    requires Watched(s, id, StatRecord2)
    ensures exists t :: Leads(s, t) && Bereft(t, id)
  {
    var s1 := Apply(s, Advance(0));
    assert Watched(s1, id, StatLock2);
    var s2 := Apply(s1, Advance(0));
    assert Watched(s2, id, CheckAge2);
    LooksAtAge(s2, id);
    var t :| Leads(s2, t) && Bereft(t, id);
    StepThen(s1, Advance(0), t);
    StepThen(s, Advance(0), t);
  }

  lemma LooksAtAge(s: State, id: Id)
    requires Watched(s, id, CheckAge2)
    ensures exists t :: Leads(s, t) && Bereft(t, id)
  {
    var s1 := Apply(s, Advance(0));
    assert Watched(s1, id, CheckUse2);
    LooksUnused(s1, id);
    var t :| Leads(s1, t) && Bereft(t, id);
    StepThen(s, Advance(0), t);
  }

  lemma LooksUnused(s: State, id: Id)
    requires Watched(s, id, CheckUse2)
    ensures exists t :: Leads(s, t) && Bereft(t, id)
  {
    assert s.Using(Library(id)) == {};
    var s1 := Apply(s, Advance(0));
    assert Watched(s1, id, Enumerate2);
    assert s1.Using(Library(id)) == {};
    var s2 := Apply(s1, Advance(0));
    assert Watched(s2, id, KillUsing2({}));
    RemovesLive(s2, id);
    var t :| Leads(s2, t) && Bereft(t, id);
    StepThen(s1, Advance(0), t);
    StepThen(s, Advance(0), t);
  }

  lemma RemovesLive(s: State, id: Id)
    requires Watched(s, id, KillUsing2({}))
    ensures exists t :: Leads(s, t) && Bereft(t, id)
  {
    var s1 := Apply(s, Advance(0));
    assert Watched(s1, id, RemoveDir2);
    RemovesDir(s1, id);
    var t :| Leads(s1, t) && Bereft(t, id);
    StepThen(s, Advance(0), t);
  }

  lemma RemovesDir(s: State, id: Id)
    requires Watched(s, id, RemoveDir2)
    ensures exists t :: Leads(s, t) && Bereft(t, id)
  {
    var c, t := s.clusters[id], Apply(s, Advance(0));
    Stop(t);
    StepThen(s, Advance(0), t);
    assert c.owner == c.(exposed := false).owner;
    assert Bereft(t, id);
  }

  // -------- A server beyond recovery --------

  const SIBLING: Pid := 8

  /** The watchdog of one server kills it, removes record and lock, and is then killed; another
      server still runs. The directory is in use and no lock speaks for it, so no sweep reclaims
      it: neither one that nobody disturbs nor, by `Recovery.OccupiedForever`, any other. */
  lemma ServerBeyondRecovery(id: Id, self: Pid)
    requires self != PID
    ensures exists s :: Leads(EMPTY, s) && Stranded(s, id, self)
  {
    TwoServers(id);
    var s1 :| Leads(EMPTY, s1) && HasServers(s1, id, {PID, SIBLING}, 0) && s1.clusters[id].Live();
    KillSibling(s1, id);
    var s2 :| Leads(s1, s2) && HasServers(s2, id, {PID}, 0) && s2.clusters[id].owner.phase.Gone?;
    CleanUp(s2, id);
    var s3 :| Leads(s2, s3) && HasServers(s3, id, {PID}, GRACE) && Bare(s3.clusters[id]);
    Follow(EMPTY, s1, s2);
    Follow(EMPTY, s2, s3);
    StaysInUse(s3, id, self);
  }

  /** One cluster with a library directory from time zero, and its servers. */
  ghost predicate HasServers(s: State, id: Id, pids: set<Pid>, now: nat) {
    && s.clusters.Keys == {id} && s.sweepers == map[] && s.now == now && s.procs.Keys == pids
    && (forall pid | pid in pids :: s.procs[pid] == Proc(id, Store(id)))
    && s.clusters[id].owner.memory.dataPath == Library(id) && s.clusters[id].dir == Some(0)
  }

  predicate Bare(c: Cluster) { c.owner.phase.Gone? && c.record.None? && c.lock.None? }

  lemma TwoServers(id: Id)
    ensures exists s :: Leads(EMPTY, s) && HasServers(s, id, {PID, SIBLING}, 0) && s.clusters[id].Live()
  {
    ServeBeside(EMPTY, id);
    var s := Owned(EMPTY.Put(id, Up(0, Library(id), 0)), id, Spawn(PID, Store(id), "tikv-0", BINARY));
    var step := Spawn(SIBLING, Store(id), "tikv-1", BINARY);
    var t := Owned(s, id, step);
    Stop(t);
    StepThen(s, Own(id, step), t);
    Follow(EMPTY, s, t);
    assert t.procs.Keys == {PID, SIBLING};
    assert HasServers(t, id, {PID, SIBLING}, 0);
  }

  lemma KillSibling(s: State, id: Id)
    requires HasServers(s, id, {PID, SIBLING}, 0) && s.clusters[id].Live()
    ensures exists t :: Leads(s, t) && HasServers(t, id, {PID}, 0) && t.clusters[id].owner.phase.Gone?
  {
    var s1 := Owned(s, id, Die);
    var t := Exited(s1, SIBLING);
    Stop(t);
    StepThen(s1, Exit(SIBLING), t);
    StepThen(s, Own(id, Die), t);
    assert t.procs.Keys == {PID};
    assert HasServers(t, id, {PID}, 0);
  }

  lemma CleanUp(s: State, id: Id)
    requires HasServers(s, id, {PID}, 0) && s.clusters[id].owner.phase.Gone?
    ensures exists t :: Leads(s, t) && HasServers(t, id, {PID}, GRACE) && Bare(t.clusters[id])
  {
    var s1 := Owned(s, id, Dog(DogRecord));
    var s2 := Owned(s1, id, Dog(DogLock));
    var t := s2.(now := GRACE);
    Stop(t);
    StepThen(s2, Tick(GRACE), t);
    StepThen(s1, Own(id, Dog(DogLock)), t);
    StepThen(s, Own(id, Dog(DogRecord)), t);
    assert HasServers(t, id, {PID}, GRACE) && Bare(t.clusters[id]);
  }

  ghost predicate Stranded(s: State, id: Id, self: Pid) {
    && Recovery.Quiet(s) && Recovery.Dead(s, id) && self !in s.procs
    && s.clusters[id].dir.Some? && s.now - s.clusters[id].dir.value >= GRACE
    && var w := Recovery.Seen(s, s.clusters[id].registry, self);
    !Recovery.NothingLeft(w.Swept(), id) && Recovery.Occupied(s, id, PID)
  }

  lemma StaysInUse(s: State, id: Id, self: Pid)
    requires Leads(EMPTY, s) && self != PID && HasServers(s, id, {PID}, GRACE) && Bare(s.clusters[id])
    ensures Stranded(s, id, self)
  {
    InUseWhenFound(s, id, self);
    assert s.procs[PID] == Proc(id, Store(id));
    assert Recovery.Occupied(s, id, PID);
    var steps :| Legal(EMPTY, steps) && Exec(EMPTY, steps) == s;
    Safety.RunKeeps(EMPTY, steps);
    Recovery.CrashRecovery(s, id, self);
  }

  lemma InUseWhenFound(s: State, id: Id, self: Pid)
    requires HasServers(s, id, {PID}, GRACE) && Bare(s.clusters[id])
    ensures !Recovery.Recoverable(Recovery.Seen(s, s.clusters[id].registry, self), id)
  {
    var w := Recovery.Seen(s, s.clusters[id].registry, self);
    assert PID in w.procs && Library(id) in w.procs[PID].paths;
    assert w.records == map[];
    assert Recovery.InUse(w, id);
  }
}
