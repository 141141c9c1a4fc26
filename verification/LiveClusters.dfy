/** What concurrent sweeps leave of live clusters, in every run of `Protocol`
    (registry.go:86-124, registry.go:207-218, registry.go:260-392, lock.go:20-57). */
module LiveClusters {
  import opened Registry
  import opened Wrappers
  import opened Protocol
  import opened Safety

  lemma {:induction false} EveryRun(steps: seq<Step>)
    requires Legal(EMPTY, steps)
    ensures Inv(Exec(EMPTY, steps))
  {
    RunKeeps(EMPTY, steps);
  }

  // -------- Safety --------

  /** Whatever the sweepers did, a live cluster's published record is there; and so are its
      directory and the servers it started, unless a sweep of another registry found the directory
      old and unused. A server is missing exactly if it was killed for a caller's directory. */
  lemma LiveClusterIsIntact(steps: seq<Step>, id: Id, pid: Pid)
    requires Legal(EMPTY, steps) && id in Exec(EMPTY, steps).clusters
    requires var c := Exec(EMPTY, steps).clusters[id]; c.Live() && c.Published()
    ensures var s := Exec(EMPTY, steps);
            Intact(s.clusters[id]) && (!s.clusters[id].exposed ==> AtWork(s, id, pid))
  {
    EveryRun(steps);
    var s := Exec(EMPTY, steps);
    assert ClusterInv(id, s.clusters[id]) && ServersInv(s, id);
  }

  ghost predicate Intact(c: Cluster) { c.record == c.owner.saved }

  /** The directory is there, and server `pid` runs unless it was killed for a caller's directory. */
  ghost predicate AtWork(s: State, id: Id, pid: Pid) {
    id in s.clusters ==>
      var c := s.clusters[id];
      && (c.owner.made && c.owner.memory.dataPath == Library(id) ==> c.dir.Some?)
      && (pid in c.owner.servers ==> (pid in s.procs && s.procs[pid].home == id <==> pid !in c.strayed))
  }

  // -------- Owners and sweepers of one registry --------

  /** Every cluster is claimed in registry `r` and every sweeper looks there. */
  ghost predicate In(steps: seq<Step>, r: nat) { forall step | step in steps :: StepIn(step, r) }

  predicate StepIn(step: Step, r: nat) { (step.Claim? ==> step.registry == r) && (step.Join? ==> step.registry == r) }

  ghost predicate Shared(s: State, r: nat) {
    && (forall id | id in s.clusters :: s.clusters[id].registry == r && !s.clusters[id].exposed)
    && (forall k | k in s.sweepers :: s.sweepers[k].registry == r)
  }

  /** Where owners and sweepers share a registry, every live cluster is intact and at work. */
  lemma SharedRegistryIntact(steps: seq<Step>, id: Id, pid: Pid, r: nat)
    requires Legal(EMPTY, steps) && In(steps, r) && id in Exec(EMPTY, steps).clusters
    requires var c := Exec(EMPTY, steps).clusters[id]; c.Live() && c.Published()
    ensures var s := Exec(EMPTY, steps); Intact(s.clusters[id]) && AtWork(s, id, pid)
  {
    StaysShared(EMPTY, steps, r);
    LiveClusterIsIntact(steps, id, pid);
  }

  lemma {:induction false} StaysShared(s: State, steps: seq<Step>, r: nat)
    requires Inv(s) && Legal(s, steps) && In(steps, r) && Shared(s, r)
    ensures Shared(Exec(s, steps), r)
    decreases |steps|
  {
    if steps != [] {
      assert StepIn(steps[0], r);
      StepStaysShared(s, steps[0], r);
      StepKeeps(s, steps[0]);
      StaysShared(Apply(s, steps[0]), steps[1..], r);
    }
  }

  lemma StepStaysShared(s: State, step: Step, r: nat)
    requires Inv(s) && Enabled(s, step) && StepIn(step, r) && Shared(s, r)
    ensures Shared(Apply(s, step), r)
  {
    if step.Advance? {
      AdvanceStaysShared(s, step.k, r);
    } else if step.Own? {
      OwnerStaysShared(s.clusters[step.id], step.step, s.now);
    } else if step.Kill? {
      KillChanges(s, step.k, step.pid);
    }
  }

  lemma OwnerStaysShared(c: Cluster, step: OwnerStep, now: nat)
    ensures var d := OwnerDoes(c, step, now); d.registry == c.registry && d.exposed == c.exposed
  {
  }

  /** A sweeper that looks in the cluster's own registry has found its record missing, so it was
      over, before it ever looks for users of the directory. */
  lemma AdvanceStaysShared(s: State, k: Agent, r: nat)
    requires Inv(s) && Enabled(s, Advance(k)) && Shared(s, r)
    ensures Shared(Advanced(s, k), r)
  {
    var w := s.sweepers[k];
    AdvancedAsOne(s, k);
    AdvanceKeepsCluster(s, k);
    assert SweepInv(s, k);
    CallExposes(s, s.clusters[w.id], k, w);
  }

  // -------- Single steps --------

  predicate BySweep(step: Step) { step.List1? || step.List2? || step.List3? || step.Advance? || step.Kill? || step.SweeperDies? }

  /** The owner still holds its lock, and its record is as it was. */
  ghost predicate Unharmed(c: Cluster, d: Cluster) {
    && d.owner == c.owner && d.record == c.record
    && d.Live() && d.owner.phase.inode in d.held && d.held[d.owner.phase.inode] == ByOwner
  }

  /** The step kills the process that runs under `pid` for a record that names a caller's
      directory: the record lists the pid, and the process names that directory and the binary. */
  predicate KilledForCaller(s: State, step: Step, pid: Pid) {
    && step.Kill? && step.pid == pid && step.k in s.sweepers && pid in s.procs
    && s.sweepers[step.k].Target().Caller? && s.sweepers[step.k].Kills(pid, s.procs[pid])
  }

  /** The directory is as it was, and `pid` dies exactly if it is killed for a caller's directory. */
  ghost predicate Spared(s: State, step: Step, t: State, id: Id, pid: Pid) {
    id in s.clusters && id in t.clusters ==>
      && t.clusters[id].dir == s.clusters[id].dir
      && (pid in s.procs && s.procs[pid].home == id ==>
            (pid !in t.procs <==> KilledForCaller(s, step, pid)) && (pid in t.procs ==> t.procs[pid] == s.procs[pid]))
  }

  /** No step of a sweeper takes the record of a live cluster, or its owner's hold on the lock. Nor
      does it take the directory, or a server but one it kills for a caller's directory, unless a
      sweep of another registry has found the directory old and unused. */
  lemma NoSweepStepHarmsLive(steps: seq<Step>, step: Step, id: Id, pid: Pid)
    requires Legal(EMPTY, steps) && Enabled(Exec(EMPTY, steps), step) && BySweep(step)
    requires var s := Exec(EMPTY, steps); id in s.clusters && s.clusters[id].Live() && s.clusters[id].Published()
    ensures var s := Exec(EMPTY, steps); var t := Apply(s, step);
            && id in t.clusters && Unharmed(s.clusters[id], t.clusters[id])
            && (!s.clusters[id].exposed ==> Spared(s, step, t, id, pid))
  {
    EveryRun(steps);
    StepSparesLive(Exec(EMPTY, steps), step, id, pid);
  }

  /** Where owners and sweepers share a registry, no step of a sweeper takes a live cluster's
      record, directory or hold on its lock, or a server but one it kills for a caller's directory.
      The path of the lock is another matter: see `HeldLockBehindEverything`. */
  lemma SharedRegistryStep(steps: seq<Step>, step: Step, id: Id, pid: Pid, r: nat)
    requires Legal(EMPTY, steps) && In(steps, r) && Enabled(Exec(EMPTY, steps), step) && BySweep(step)
    requires var s := Exec(EMPTY, steps); id in s.clusters && s.clusters[id].Live() && s.clusters[id].Published()
    ensures var s := Exec(EMPTY, steps); var t := Apply(s, step);
            id in t.clusters && Unharmed(s.clusters[id], t.clusters[id]) && Spared(s, step, t, id, pid)
  {
    StaysShared(EMPTY, steps, r);
    NoSweepStepHarmsLive(steps, step, id, pid);
  }

  // -------- When every server survives --------

  /** Some cluster of the run is given the directory `path`. */
  ghost predicate Given(steps: seq<Step>, path: DataPath) {
    exists step | step in steps :: step.Own? && step.step.MakeDir? && step.step.path == path
  }

  /** The command line names no caller's directory that some cluster is given. */
  ghost predicate NamesNoneGiven(steps: seq<Step>, process: Process) {
    forall path | path in process.paths && path.Caller? :: !Given(steps, path)
  }

  /** No cluster is given a caller's directory that a server of `id` names. */
  ghost predicate Apart(steps: seq<Step>, id: Id) {
    forall step | step in steps && step.Own? && step.id == id && step.step.Spawn? :: NamesNoneGiven(steps, step.step.process)
  }

  /** What follows from that at every point of the run `all`. */
  ghost predicate KeptApart(all: seq<Step>, s: State, id: Id) {
    && (forall x | x in s.clusters && s.clusters[x].owner.memory.dataPath.Caller? :: Given(all, s.clusters[x].owner.memory.dataPath))
    && (forall pid | pid in s.procs && s.procs[pid].home == id :: NamesNoneGiven(all, s.procs[pid].process))
    && (id in s.clusters ==> s.clusters[id].strayed == {})
  }

  /** Then, where owners and sweepers share a registry, every server that a live cluster started
      and that did not exit by itself runs. */
  lemma EveryServerSurvives(steps: seq<Step>, id: Id, pid: Pid, r: nat)
    requires Legal(EMPTY, steps) && In(steps, r) && Apart(steps, id) && id in Exec(EMPTY, steps).clusters
    requires var c := Exec(EMPTY, steps).clusters[id]; c.Live() && c.Published() && pid in c.owner.servers
    ensures var s := Exec(EMPTY, steps); pid in s.procs && s.procs[pid].home == id
  {
    SharedRegistryIntact(steps, id, pid, r);
    StaysApart(steps, EMPTY, steps, id);
  }

  lemma {:induction false} StaysApart(all: seq<Step>, s: State, steps: seq<Step>, id: Id)
    requires Apart(all, id) && (forall step | step in steps :: step in all)
    requires Inv(s) && KeptApart(all, s, id) && Legal(s, steps)
    ensures KeptApart(all, Exec(s, steps), id)
    decreases |steps|
  {
    if steps != [] {
      assert steps[0] in steps;
      StepStaysApart(all, s, steps[0], id);
      StepKeeps(s, steps[0]);
      StaysApart(all, Apply(s, steps[0]), steps[1..], id);
    }
  }

  lemma StepStaysApart(all: seq<Step>, s: State, step: Step, id: Id)
    requires Apart(all, id) && step in all && Inv(s) && KeptApart(all, s, id) && Enabled(s, step)
    ensures KeptApart(all, Apply(s, step), id)
  {
    if step.Advance? {
      AdvanceStaysApart(all, s, step.k, id);
    } else if step.Kill? {
      KillStaysApart(all, s, step.k, step.pid, id);
    } else if step.Own? {
      OwnerStaysApart(all, s, step.id, step.step, id);
    }
  }

  lemma OwnerStaysApart(all: seq<Step>, s: State, x: Id, step: OwnerStep, id: Id)
    requires Apart(all, id) && Own(x, step) in all && KeptApart(all, s, id)
    requires x in s.clusters && OwnerCan(s, x, s.clusters[x], step)
    ensures KeptApart(all, Owned(s, x, step), id)
  {
    OwnerNeverStrays(s.clusters[x], step, s.now);
    OwnerKeepsPath(all, s.clusters[x], x, step, s.now);
  }

  lemma OwnerKeepsPath(all: seq<Step>, c: Cluster, x: Id, step: OwnerStep, now: nat)
    requires Own(x, step) in all
    ensures var path := OwnerDoes(c, step, now).owner.memory.dataPath;
            path == c.owner.memory.dataPath || Given(all, path)
  {
    if step.MakeDir? {
      assert Own(x, step).step.path == step.path;
    }
  }

  lemma AdvanceStaysApart(all: seq<Step>, s: State, k: Agent, id: Id)
    requires Inv(s) && KeptApart(all, s, id) && Enabled(s, Advance(k))
    ensures KeptApart(all, Advanced(s, k), id)
  {
    var w := s.sweepers[k];
    AdvancedAsOne(s, k);
    CallLeavesOwner(s, s.clusters[w.id], k, w);
  }

  lemma KillStaysApart(all: seq<Step>, s: State, k: Agent, pid: Pid, id: Id)
    requires Inv(s) && KeptApart(all, s, id) && Enabled(s, Kill(k, pid))
    ensures KeptApart(all, KillOne(s, k, pid), id)
  {
    KillChanges(s, k, pid);
    TargetIsGiven(all, s, k, pid, id);
  }

  /** A sweeper that kills for a caller's directory does so for one that some cluster was given. */
  lemma TargetIsGiven(all: seq<Step>, s: State, k: Agent, pid: Pid, id: Id)
    requires Inv(s) && KeptApart(all, s, id) && Enabled(s, Kill(k, pid))
    ensures s.sweepers[k].Target().Caller? ==> Given(all, s.sweepers[k].Target())
  {
    var w := s.sweepers[k];
    assert SweepInv(s, k) && ClusterInv(w.id, s.clusters[w.id]);
  }

  lemma StepSparesLive(s: State, step: Step, id: Id, pid: Pid)
    requires Inv(s) && Enabled(s, step) && BySweep(step)
    requires id in s.clusters && s.clusters[id].Live() && s.clusters[id].Published()
    ensures var t := Apply(s, step);
            && id in t.clusters && Unharmed(s.clusters[id], t.clusters[id])
            && (!s.clusters[id].exposed ==> Spared(s, step, t, id, pid))
  {
    if step.Advance? {
      AdvanceSparesLive(s, step.k, id);
    } else if step.Kill? {
      KillSparesLive(s, step.k, step.pid, id, pid);
    }
    StillHeld(s, step, id);
  }

  lemma StillHeld(s: State, step: Step, id: Id)
    requires Inv(s) && Enabled(s, step) && id in Apply(s, step).clusters && Apply(s, step).clusters[id].Live()
    ensures var d := Apply(s, step).clusters[id]; d.owner.phase.inode in d.held && d.held[d.owner.phase.inode] == ByOwner
  {
    StepKeeps(s, step);
    assert ClusterInv(id, Apply(s, step).clusters[id]);
  }

  lemma AdvanceSparesLive(s: State, k: Agent, id: Id)
    requires Inv(s) && Enabled(s, Advance(k)) && id in s.clusters
    requires s.clusters[id].Live() && s.clusters[id].Published()
    ensures var c, d := s.clusters[id], Advanced(s, k).clusters[id];
            d.owner == c.owner && d.record == c.record && (!c.exposed ==> d.dir == c.dir)
    ensures Advanced(s, k).procs == s.procs
  {
    AdvancedAsOne(s, k);
    if s.sweepers[k].id == id {
      assert SweepInv(s, k);
      CallSparesLive(s, s.clusters[id], k, s.sweepers[k]);
    }
  }

  lemma CallSparesLive(s: State, c: Cluster, k: Agent, w: Sweeper)
    requires SweeperInv(s, c, k, w) && c.Live() && c.Published()
    ensures var d := AfterCall(s, c, k, w); d.owner == c.owner && d.record == c.record && (!c.exposed ==> d.dir == c.dir)
  {
    CallLeavesOwner(s, c, k, w);
    if w.at.Second() {
      Call2SparesDir(s, c, k, w);
    }
  }

  lemma Call2SparesDir(s: State, c: Cluster, k: Agent, w: Sweeper)
    ensures var d := Call2(s, c, k, w).0; d.record == c.record && (!w.at.RemoveDir2? ==> d.dir == c.dir)
  {
  }

  lemma KillSparesLive(s: State, k: Agent, p: Pid, id: Id, pid: Pid)
    requires Inv(s) && Enabled(s, Kill(k, p)) && id in s.clusters && s.clusters[id].Live()
    ensures var t := KillOne(s, k, p); var c, d := s.clusters[id], t.clusters[id];
            && d.owner == c.owner && d.record == c.record && d.dir == c.dir
            && (!c.exposed ==> Spared(s, Kill(k, p), t, id, pid))
  {
    KillChanges(s, k, p);
    if p == pid && pid in s.procs && s.sweepers[k].Kills(pid, s.procs[pid]) {
      Victim(s, k, p);
    }
  }

  /** What the two marks mean, step by step: a server is marked exactly when it is killed for a
      caller's directory, */
  lemma StrayedExactly(s: State, step: Step, id: Id, pid: Pid)
    requires Enabled(s, step) && id in s.clusters && id in Apply(s, step).clusters && pid !in s.clusters[id].strayed
    ensures pid in Apply(s, step).clusters[id].strayed <==> KilledForCaller(s, step, pid) && s.procs[pid].home == id
  {
    if step.Own? {
      OwnerNeverStrays(s.clusters[step.id], step.step, s.now);
    } else if step.Advance? {
      var w := s.sweepers[step.k];
      CallLeavesOwner(s, s.clusters[w.id], step.k, w);
    }
  }

  lemma OwnerNeverStrays(c: Cluster, step: OwnerStep, now: nat)
    ensures OwnerDoes(c, step, now).strayed <= c.strayed
  {
  }

  /** and a live cluster is marked exactly when a sweeper of another registry, having found the
      directory old, finds no process that references it. */
  lemma ExposedExactly(s: State, step: Step, id: Id)
    requires Inv(s) && Enabled(s, step) && id in s.clusters && id in Apply(s, step).clusters && !s.clusters[id].exposed
    ensures Apply(s, step).clusters[id].exposed <==>
              && step.Advance? && s.sweepers[step.k].id == id && s.sweepers[step.k].at.CheckUse2?
              && s.clusters[id].Live() && s.Using(Library(id)) == {}
    ensures Apply(s, step).clusters[id].exposed ==> !s.clusters[id].Ours(s.sweepers[step.k])
  {
    if step.Advance? {
      AdvanceExposes(s, step.k, id);
    } else if step.Own? {
      OwnerStaysShared(s.clusters[step.id], step.step, s.now);
    } else if step.Kill? {
      KillChanges(s, step.k, step.pid);
    }
  }

  lemma AdvanceExposes(s: State, k: Agent, id: Id)
    requires Inv(s) && Enabled(s, Advance(k)) && id in s.clusters && !s.clusters[id].exposed
    ensures var w, t := s.sweepers[k], Advanced(s, k);
            && id in t.clusters
            && (t.clusters[id].exposed <==>
                  w.id == id && w.at.CheckUse2? && s.clusters[id].Live() && s.Using(Library(id)) == {})
            && (t.clusters[id].exposed ==> !s.clusters[id].Ours(w))
  {
    var w := s.sweepers[k];
    AdvancedAsOne(s, k);
    assert SweepInv(s, k);
    CallExposes(s, s.clusters[w.id], k, w);
  }

  // -------- What a probe finds --------

  /** While an owner holds its lock, the lock path names the very inode it holds, or nothing, and
      nothing exactly if a third pass unlinked it after the owner had opened it. So a probe that
      never creates the file obtains no lock that stands for a live owner. */
  lemma ProbeNeverFindsLive(steps: seq<Step>, id: Id, k: Agent, taken: At)
    requires Legal(EMPTY, steps) && id in Exec(EMPTY, steps).clusters && Exec(EMPTY, steps).clusters[id].Live()
    ensures var c := Exec(EMPTY, steps).clusters[id];
            && (c.lock.Some? ==> c.lock.value == c.owner.phase.inode && TryFlock(c, k, c.lock.value, taken) == (c, Idle))
            && (c.lock.None? <==> c.unlinked)
  {
    EveryRun(steps);
    assert ClusterInv(id, Exec(EMPTY, steps).clusters[id]);
  }

  /** The step is a third pass's unlink of the path of a lock its owner has opened, or of a record. */
  predicate LateUnlink(s: State, step: Step, id: Id) {
    && step.Advance? && step.k in s.sweepers && s.sweepers[step.k].at.Unlink3? && s.sweepers[step.k].id == id
    && id in s.clusters && LateFor(s.clusters[id])
  }

  predicate LateFor(c: Cluster) { c.owner.phase.Opened? || c.owner.phase.Locked? || c.record.Some? }

  ghost predicate NoLateUnlink(s: State, steps: seq<Step>, id: Id)
    requires Legal(s, steps)
    decreases |steps|
  {
    steps != [] ==> !LateUnlink(s, steps[0], id) && NoLateUnlink(Apply(s, steps[0]), steps[1..], id)
  }

  /** The file behind the lock path is there and its owner holds the lock on it. */
  predicate HeldLockBehind(c: Cluster) { c.lock.Some? && c.lock.value in c.held && c.held[c.lock.value] == ByOwner }

  /** A live cluster has a held lock behind its path, as registry.go:91-93 says, exactly in the runs
      without such an unlink. */
  lemma HeldLockBehindEverything(steps: seq<Step>, id: Id)
    requires Legal(EMPTY, steps) && id in Exec(EMPTY, steps).clusters && Exec(EMPTY, steps).clusters[id].Live()
    ensures HeldLockBehind(Exec(EMPTY, steps).clusters[id]) <==> NoLateUnlink(EMPTY, steps, id)
  {
    EveryRun(steps);
    assert ClusterInv(id, Exec(EMPTY, steps).clusters[id]);
    UnlinkedExactly(EMPTY, steps, id);
  }

  predicate Unlinked(s: State, id: Id) { id in s.clusters && s.clusters[id].unlinked }

  /** The mark that `ProbeNeverFindsLive` speaks of is set exactly by such an unlink. */
  lemma {:induction false} UnlinkedExactly(s: State, steps: seq<Step>, id: Id)
    requires Inv(s) && Legal(s, steps)
    ensures Unlinked(Exec(s, steps), id) <==> Unlinked(s, id) || !NoLateUnlink(s, steps, id)
    decreases |steps|
  {
    if steps != [] {
      StepUnlinks(s, steps[0], id);
      StepKeeps(s, steps[0]);
      UnlinkedExactly(Apply(s, steps[0]), steps[1..], id);
    }
  }

  lemma StepUnlinks(s: State, step: Step, id: Id)
    requires Inv(s) && Enabled(s, step)
    ensures Unlinked(Apply(s, step), id) <==> Unlinked(s, id) || LateUnlink(s, step, id)
  {
    if step.Advance? {
      AdvanceUnlinks(s, step.k, id);
    } else if step.Own? {
      OwnerNeverUnlinks(s.clusters[step.id], step.step, s.now);
    } else if step.Kill? {
      KillChanges(s, step.k, step.pid);
    }
  }

  lemma OwnerNeverUnlinks(c: Cluster, step: OwnerStep, now: nat)
    ensures OwnerDoes(c, step, now).unlinked == c.unlinked
  {
  }

  lemma AdvanceUnlinks(s: State, k: Agent, id: Id)
    requires Inv(s) && Enabled(s, Advance(k))
    ensures Unlinked(Advanced(s, k), id) <==> Unlinked(s, id) || LateUnlink(s, Advance(k), id)
  {
    var w := s.sweepers[k];
    AdvancedAsOne(s, k);
    CallUnlinks(s, s.clusters[w.id], k, w);
  }

  lemma CallUnlinks(s: State, c: Cluster, k: Agent, w: Sweeper)
    ensures AfterCall(s, c, k, w).unlinked <==> c.unlinked || (w.at.Unlink3? && LateFor(c))
  {
    if w.at.First() {
      assert Call1(s, c, k, w).0.unlinked == c.unlinked;
    } else if w.at.Second() {
      assert Call2(s, c, k, w).0.unlinked == c.unlinked;
    }
  }

  // -------- Clusters of another registry --------

  /** The directory has gone unchanged for the grace period. */
  predicate Old(s: State, id: Id) { id in s.clusters && s.clusters[id].dir.Some? && s.now - s.clusters[id].dir.value >= GRACE }

  /** From the moment the directory is first old on, some process always references it while the
      owner lives. */
  ghost predicate Shown(s: State, steps: seq<Step>, id: Id, aged: bool)
    requires Legal(s, steps)
    decreases |steps|
  {
    var old' := aged || Old(s, id);
    && (old' && id in s.clusters && s.clusters[id].Live() ==> s.Using(Library(id)) != {})
    && (steps != [] ==> Shown(Apply(s, steps[0]), steps[1..], id, old'))
  }

  /** Every sweeper about to look for users has seen the directory old. */
  ghost predicate AgeSeen(s: State, id: Id, aged: bool) {
    forall k | k in s.sweepers && s.sweepers[k].id == id && s.sweepers[k].at.CheckUse2? :: aged
  }

  /** A live cluster kept in whatever registry is never found unused, and so keeps its directory,
      if from the time its directory is old on at least one of its servers is always visible. */
  lemma ForeignClusterSurvives(steps: seq<Step>, id: Id)
    requires Legal(EMPTY, steps) && Shown(EMPTY, steps, id, false) && id in Exec(EMPTY, steps).clusters
    ensures var c := Exec(EMPTY, steps).clusters[id];
            && !c.exposed
            && (c.Live() && c.owner.made && c.owner.memory.dataPath == Library(id) ==> c.dir.Some?)
  {
    NeverExposed(EMPTY, steps, id, false);
    EveryRun(steps);
    assert ClusterInv(id, Exec(EMPTY, steps).clusters[id]);
  }

  lemma {:induction false} NeverExposed(s: State, steps: seq<Step>, id: Id, aged: bool)
    requires Legal(s, steps) && Shown(s, steps, id, aged) && AgeSeen(s, id, aged)
    requires id in s.clusters ==> !s.clusters[id].exposed
    ensures id in Exec(s, steps).clusters ==> !Exec(s, steps).clusters[id].exposed
    decreases |steps|
  {
    if steps != [] {
      StepNeverExposes(s, steps[0], id, aged);
      NeverExposed(Apply(s, steps[0]), steps[1..], id, aged || Old(s, id));
    }
  }

  lemma StepNeverExposes(s: State, step: Step, id: Id, aged: bool)
    requires Enabled(s, step) && AgeSeen(s, id, aged) && (id in s.clusters ==> !s.clusters[id].exposed)
    requires (aged || Old(s, id)) && id in s.clusters && s.clusters[id].Live() ==> s.Using(Library(id)) != {}
    ensures var t := Apply(s, step);
            && AgeSeen(t, id, aged || Old(s, id))
            && (id in t.clusters ==> !t.clusters[id].exposed)
  {
    if step.Advance? {
      AdvanceNeverExposes(s, step.k, id, aged);
    } else if step.Own? {
      OwnerStaysShared(s.clusters[step.id], step.step, s.now);
    } else if step.Kill? {
      KillNeverExposes(s, step.k, step.pid, id, aged);
    }
  }

  lemma KillNeverExposes(s: State, k: Agent, pid: Pid, id: Id, aged: bool)
    requires Enabled(s, Kill(k, pid)) && AgeSeen(s, id, aged)
    ensures AgeSeen(KillOne(s, k, pid), id, aged)
    ensures id in s.clusters ==> id in KillOne(s, k, pid).clusters && KillOne(s, k, pid).clusters[id].exposed == s.clusters[id].exposed
    ensures id !in s.clusters ==> id !in KillOne(s, k, pid).clusters
  {
    KillChanges(s, k, pid);
  }

  lemma AdvanceNeverExposes(s: State, k: Agent, id: Id, aged: bool)
    requires Enabled(s, Advance(k)) && AgeSeen(s, id, aged) && (id in s.clusters ==> !s.clusters[id].exposed)
    requires (aged || Old(s, id)) && id in s.clusters && s.clusters[id].Live() ==> s.Using(Library(id)) != {}
    ensures var t := Advanced(s, k);
            && AgeSeen(t, id, aged || Old(s, id))
            && (id in t.clusters ==> !t.clusters[id].exposed)
  {
    var w := s.sweepers[k];
    CallExposes(s, s.clusters[w.id], k, w);
  }

  lemma CallExposes(s: State, c: Cluster, k: Agent, w: Sweeper)
    ensures var (d, at) := Call(s, c, k, w);
            && (d.exposed <==> c.exposed || (w.at.CheckUse2? && c.Live() && s.Using(Library(w.id)) == {}))
            && (at.CheckUse2? ==> w.at.CheckAge2? && c.dir.Some? && s.now - c.dir.value >= GRACE)
  {
    if w.at.First() {
      assert Call1(s, c, k, w).0.exposed == c.exposed;
    } else if w.at.Second() {
      var (d, at) := Call2(s, c, k, w);
      assert w.at.CheckUse2? || d.exposed == c.exposed;
    }
  }
}
