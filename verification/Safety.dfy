/** What every step of `Protocol` keeps, and what that means for live clusters. */
module Safety {
  import opened Registry
  import opened Wrappers
  import opened Protocol

  // -------- The invariant --------

  /** A record of cluster `id` names its own library directory, or one it does not own. */
  ghost predicate Fits(id: Id, r: Record) {
    (r.dataPath.Library? ==> r.dataPath.id == id) && (r.owns <==> r.dataPath.Library?)
  }

  ghost predicate RecordInv(id: Id, c: Cluster) {
    var o := c.owner;
    && Fits(id, o.memory)
    && (o.pending.Some? ==> Fits(id, o.pending.value) && o.pending.value.dataPath == o.memory.dataPath)
    && (o.saved.Some? ==> Fits(id, o.saved.value))
    && (o.saved.Some? && o.saved.value.dataPath != NoPath ==> o.saved.value.dataPath == o.memory.dataPath)
    && (c.record.Some? ==> c.record == o.saved)
    && (c.Live() && c.Published() ==> c.record == o.saved)
    && (o.phase.ClosingLock? ==> c.record.None?)
  }

  ghost predicate LockInv(c: Cluster) {
    var o := c.owner;
    // The path of a lock the owner holds, or is about to take, names that very inode or nothing.
    && (o.phase.Opened? || o.phase.Locked? ==> c.lock == if c.unlinked then None else Some(o.phase.inode))
    && (o.phase.Claimed? ==> !c.unlinked)
    && (o.phase.Locked? ==> o.phase.inode in c.held && c.held[o.phase.inode] == ByOwner)
    && (forall n | n in c.held && c.held[n] == ByOwner :: o.phase == Locked(n))
    && (c.Over() && c.record.Some? && !c.unlinked && !c.dogged ==> c.lock.Some?)
  }

  ghost predicate DirInv(c: Cluster) {
    var o := c.owner;
    && (o.phase.Claimed? || o.phase.Opened? ==> !c.Published())
    && (!c.Published() ==> c.dir.None? && !o.made && !c.exposed && o.servers == {})
    && (c.Live() && o.made && o.memory.dataPath.Library? && !c.exposed ==> c.dir.Some?)
    && (c.dogged ==> o.phase.Gone?)
  }

  ghost predicate ClusterInv(id: Id, c: Cluster) { RecordInv(id, c) && LockInv(c) && DirInv(c) }

  /** The first pass, up to the lock, and past it. */
  ghost predicate Pass1Inv(s: State, c: Cluster, w: Sweeper) {
    var at := w.at;
    && (at.OpenLock1? || at.Flock1? ==> c.Published() && c.Ours(w))
    && (at.Flock1? && c.Live() ==> c.owner.phase == Locked(at.inode))
    && (at.InPass1() ==> c.Published() && c.Ours(w) && c.Over())
    && (at.KillRecorded? || at.Enumerate1? || at.KillUsing1? || at.RemoveDir1? ==> c.owner.saved == Some(at.record))
    && (at.KillUsing1? && at.record.owns ==> s.Using(Library(w.id)) <= at.todo)
    && (at.RemoveDir1? || at.RemoveRecord1? || at.RemoveLock1? || at.Release1? ==>
          c.owner.saved.value.owns ==> s.Using(Library(w.id)) == {})
    && (at.RemoveLock1? || at.Release1? ==> c.record.None?)
  }

  ghost predicate Pass2Inv(c: Cluster, w: Sweeper) {
    var at := w.at;
    var past := at.OpenLock2? || at.Flock2? || at.Release2?;
    && (at.StatRecord2? ==> c.Published())
    && (at.StatLock2? || past || at.CheckAge2? || at.CheckUse2? || at.Reclaiming2() ==>
          c.Published() && (c.Ours(w) ==> c.Over() && c.record.None?))
    && (past ==> c.Ours(w))
    && (at.Reclaiming2() ==> c.Over() || c.exposed)
  }

  ghost predicate SweeperInv(s: State, c: Cluster, k: Agent, w: Sweeper) {
    && Pass1Inv(s, c, w) && Pass2Inv(c, w)
    && (forall n | n in w.at.Locks() :: n in c.held && c.held[n] == BySweeper(k))
  }

  ghost predicate SweepInv(s: State, k: Agent) {
    k in s.sweepers ==>
      var w := s.sweepers[k];
      !w.at.Idle? ==> w.id in s.clusters && SweeperInv(s, s.clusters[w.id], k, w)
  }

  /** Whoever is said to hold a lock does. */
  ghost predicate HolderInv(s: State, id: Id) {
    id in s.clusters ==>
      forall n | n in s.clusters[id].held && s.clusters[id].held[n].BySweeper? ::
        var k := s.clusters[id].held[n].k;
        k in s.sweepers && s.sweepers[k].id == id && n in s.sweepers[k].at.Locks()
  }

  ghost predicate ProcInv(s: State, pid: Pid) {
    pid in s.procs ==>
      var p := s.procs[pid];
      && p.home in s.clusters
      && var c := s.clusters[p.home];
      && c.Published() && c.owner.memory.dataPath != NoPath && c.owner.saved.value.dataPath == c.owner.memory.dataPath
      && p.Names(c.owner.memory.dataPath)
      && (forall x | p.Names(Library(x)) :: x == p.home)
      && !c.owner.phase.Closing? && !c.owner.phase.ClosingLock?
      && (c.Over() && !c.dogged && c.owner.saved.value.owns ==> c.record.Some?)
  }

  /** What a live owner started and did not exit by itself is still there, but for the servers
      killed for a caller's directory, which are not. */
  ghost predicate ServersInv(s: State, id: Id) {
    id in s.clusters ==>
      var c := s.clusters[id];
      c.Live() && !c.exposed ==>
        forall pid | pid in c.owner.servers :: (pid in s.procs && s.procs[pid].home == id) <==> pid !in c.strayed
  }

  ghost predicate Inv(s: State) {
    && (forall id | id in s.clusters :: ClusterInv(id, s.clusters[id]))
    && (forall id :: HolderInv(s, id))
    && (forall id :: ServersInv(s, id))
    && (forall k :: SweepInv(s, k))
    && (forall pid :: ProcInv(s, pid))
  }

  // -------- What others may rely on --------

  /** What a sweeper has learnt about a cluster stays true. */
  ghost predicate Later(c: Cluster, d: Cluster) {
    && d.registry == c.registry
    && (c.Published() ==> d.Published())
    && (c.Published() && d.Live() ==> d.owner.phase == c.owner.phase)
    && (c.Over() ==> d.Over() && d.owner.saved == c.owner.saved && (c.record.None? ==> d.record.None?))
    && (c.exposed ==> d.exposed)
  }

  ghost predicate KeepsLocks(c: Cluster, d: Cluster, k: Agent) {
    forall n | n in c.held && c.held[n] == BySweeper(k) :: n in d.held && d.held[n] == BySweeper(k)
  }

  /** A sweeper's knowledge survives what others do. */
  lemma SweeperStays(s: State, t: State, c: Cluster, d: Cluster, k: Agent, w: Sweeper)
    requires SweeperInv(s, c, k, w) && Later(c, d) && KeepsLocks(c, d, k)
    requires c.Over() ==> t.Using(Library(w.id)) <= s.Using(Library(w.id))
    ensures SweeperInv(t, d, k, w)
  {
    assert Pass1Inv(t, d, w);
    assert Pass2Inv(d, w);
  }

  // -------- Owner steps --------

  lemma OwnerKeepsRecord(s: State, id: Id, step: OwnerStep)
    requires id in s.clusters && ClusterInv(id, s.clusters[id]) && OwnerCan(s, id, s.clusters[id], step)
    ensures RecordInv(id, OwnerDoes(s.clusters[id], step, s.now))
  {
  }

  lemma OwnerKeepsLock(s: State, id: Id, step: OwnerStep)
    requires id in s.clusters && ClusterInv(id, s.clusters[id]) && OwnerCan(s, id, s.clusters[id], step)
    ensures var c := s.clusters[id]; var d := OwnerDoes(c, step, s.now); LockInv(d) && SameHolders(c, d)
  {
  }

  lemma OwnerKeepsDir(s: State, id: Id, step: OwnerStep)
    requires id in s.clusters && ClusterInv(id, s.clusters[id]) && OwnerCan(s, id, s.clusters[id], step)
    ensures var c := s.clusters[id]; var d := OwnerDoes(c, step, s.now); DirInv(d) && Later(c, d)
  {
    if step.Open? || step.Flock? || step.OpenFails? || step.WriteTemp? || step.Rename? || step.SaveFails? {
      SavingKeepsDir(s, id, step);
    } else if step.MakeDir? || step.WriteDir? || step.Spawn? || step.TearDown? || step.RemoveDir? {
      WorkKeepsDir(s, id, step);
    } else {
      EndKeepsDir(s, id, step);
    }
  }

  lemma SavingKeepsDir(s: State, id: Id, step: OwnerStep)
    requires id in s.clusters && ClusterInv(id, s.clusters[id]) && OwnerCan(s, id, s.clusters[id], step)
    requires step.Open? || step.Flock? || step.OpenFails? || step.WriteTemp? || step.Rename? || step.SaveFails?
    ensures var c := s.clusters[id]; var d := OwnerDoes(c, step, s.now); DirInv(d) && Later(c, d)
  {
  }

  lemma WorkKeepsDir(s: State, id: Id, step: OwnerStep)
    requires id in s.clusters && ClusterInv(id, s.clusters[id]) && OwnerCan(s, id, s.clusters[id], step)
    requires step.MakeDir? || step.WriteDir? || step.Spawn? || step.TearDown? || step.RemoveDir?
    ensures var c := s.clusters[id]; var d := OwnerDoes(c, step, s.now); DirInv(d) && Later(c, d)
  {
  }

  lemma EndKeepsDir(s: State, id: Id, step: OwnerStep)
    requires id in s.clusters && ClusterInv(id, s.clusters[id]) && OwnerCan(s, id, s.clusters[id], step)
    requires step.Release? || step.UnlinkRecord? || step.UnlinkLock? || step.Abandon? || step.Die? || step.Dog?
    ensures var c := s.clusters[id]; var d := OwnerDoes(c, step, s.now); DirInv(d) && Later(c, d)
  {
  }

  /** No sweeper gains or loses a lock. */
  ghost predicate SameHolders(c: Cluster, d: Cluster) {
    && (forall n | n in c.held && c.held[n].BySweeper? :: n in d.held && d.held[n] == c.held[n])
    && (forall n | n in d.held && d.held[n].BySweeper? :: n in c.held && d.held[n] == c.held[n])
  }

  /** A change to one cluster that is not a sweeper's. */
  lemma OneCluster(s: State, t: State, id: Id, d: Cluster)
    requires Inv(s) && id in s.clusters && t.clusters == s.clusters[id := d] && t.sweepers == s.sweepers
    requires ClusterInv(id, d) && Later(s.clusters[id], d) && SameHolders(s.clusters[id], d)
    requires forall x | x in s.clusters && s.clusters[x].Over() :: t.Using(Library(x)) <= s.Using(Library(x))
    ensures forall x | x in t.clusters :: ClusterInv(x, t.clusters[x])
    ensures forall x :: HolderInv(t, x)
    ensures forall k :: SweepInv(t, k)
  {
    forall k ensures SweepInv(t, k) {
      assert SweepInv(s, k);
      if k in s.sweepers && !s.sweepers[k].at.Idle? {
        var w := s.sweepers[k];
        SweeperStays(s, t, s.clusters[w.id], t.clusters[w.id], k, w);
      }
    }
    forall x ensures HolderInv(t, x) {
      assert HolderInv(s, x);
    }
  }

  lemma OwnerKeepsProc(s: State, id: Id, step: OwnerStep, pid: Pid)
    requires id in s.clusters && ClusterInv(id, s.clusters[id]) && OwnerCan(s, id, s.clusters[id], step)
    requires ProcInv(s, pid)
    ensures ProcInv(Owned(s, id, step), pid)
  {
  }

  lemma OwnerKeepsServers(s: State, id: Id, step: OwnerStep, x: Id)
    requires id in s.clusters && ClusterInv(id, s.clusters[id]) && OwnerCan(s, id, s.clusters[id], step)
    requires ServersInv(s, x)
    ensures ServersInv(Owned(s, id, step), x)
  {
  }

  lemma OwnerStepKeeps(s: State, id: Id, step: OwnerStep)
    requires Inv(s) && id in s.clusters && OwnerCan(s, id, s.clusters[id], step)
    ensures Inv(Owned(s, id, step))
  {
    var t := Owned(s, id, step);
    OwnerKeepsRecord(s, id, step);
    OwnerKeepsLock(s, id, step);
    OwnerKeepsDir(s, id, step);
    OneCluster(s, t, id, OwnerDoes(s.clusters[id], step, s.now));
    forall pid ensures ProcInv(t, pid) { OwnerKeepsProc(s, id, step, pid); }
    forall x ensures ServersInv(t, x) { OwnerKeepsServers(s, id, step, x); }
  }

  // -------- Sweeper steps --------

  /** Sweeper `k` holds just the locks it should at `at`. */
  ghost predicate HoldsOnly(c: Cluster, k: Agent, at: At) {
    forall n :: n in c.held && c.held[n] == BySweeper(k) <==> n in at.Locks()
  }

  ghost predicate SameForOthers(c: Cluster, d: Cluster, k: Agent) {
    && (forall n | n in c.held && c.held[n] != BySweeper(k) :: n in d.held && d.held[n] == c.held[n])
    && (forall n | n in d.held && d.held[n] != BySweeper(k) :: n in c.held && c.held[n] == d.held[n])
  }

  lemma TryFlockKeepsLocks(c: Cluster, k: Agent, n: nat, at: At, taken: At)
    requires HoldsOnly(c, k, at) && at.Locks() == {} && taken.Locks() == {n}
    ensures var (d, next) := TryFlock(c, k, n, taken); SameForOthers(c, d, k) && HoldsOnly(d, k, next)
  {
    if n !in c.held {
      var d := c.(held := c.held[n := BySweeper(k)]);
      assert forall m | m != n :: m in d.held <==> m in c.held;
      assert HoldsOnly(d, k, taken);
    }
  }

  lemma UnlockKeepsLocks(c: Cluster, k: Agent, n: nat, at: At, next: At)
    requires HoldsOnly(c, k, at) && at.Locks() == {n} && next.Locks() == {}
    ensures var d := Unlock(c, n, next).0; SameForOthers(c, d, k) && HoldsOnly(d, k, next)
  {
  }

  lemma Call1KeepsFiles(s: State, c: Cluster, k: Agent, w: Sweeper)
    requires ClusterInv(w.id, c) && Pass1Inv(s, c, w) && Pass2Inv(c, w) && w.at.First()
    ensures var d := Call1(s, c, k, w).0; RecordInv(w.id, d) && DirInv(d) && Later(c, d)
  {
  }

  lemma Call1KeepsLockInv(s: State, c: Cluster, k: Agent, w: Sweeper)
    requires ClusterInv(w.id, c) && Pass1Inv(s, c, w) && Pass2Inv(c, w) && HoldsOnly(c, k, w.at) && w.at.First()
    ensures LockInv(Call1(s, c, k, w).0)
  {
  }

  lemma Call1KeepsLocks(s: State, c: Cluster, k: Agent, w: Sweeper)
    requires HoldsOnly(c, k, w.at) && w.at.First()
    ensures var (d, at) := Call1(s, c, k, w); SameForOthers(c, d, k) && HoldsOnly(d, k, at)
  {
    var (d, at) := Call1(s, c, k, w);
    if w.at.Flock1? {
      TryFlockKeepsLocks(c, k, w.at.inode, w.at, ReadRecord(w.at.inode));
    } else if at.Locks() != w.at.Locks() {
      UnlockKeepsLocks(c, k, w.at.inode, w.at, at);
    } else {
      assert d.held == c.held;
    }
  }

  lemma Call1KeepsEarly(s: State, c: Cluster, k: Agent, w: Sweeper)
    requires ClusterInv(w.id, c) && Pass1Inv(s, c, w) && Pass2Inv(c, w) && w.at.Todo() == {} && (w.at.OpenLock1? || w.at.Flock1? || w.at.ReadRecord?)
    ensures var (d, at) := Call1(s, c, k, w); Pass1Inv(s, d, w.(at := at)) && !at.Second()
  {
  }

  lemma Call1KeepsLate(s: State, c: Cluster, k: Agent, w: Sweeper)
    requires ClusterInv(w.id, c) && Pass1Inv(s, c, w) && Pass2Inv(c, w) && w.at.Todo() == {} && w.at.InPass1() && !w.at.ReadRecord?
    ensures var (d, at) := Call1(s, c, k, w); Pass1Inv(s, d, w.(at := at)) && !at.Second()
  {
  }

  lemma Call1KeepsSweeper(s: State, c: Cluster, k: Agent, w: Sweeper)
    requires ClusterInv(w.id, c) && Pass1Inv(s, c, w) && Pass2Inv(c, w) && w.at.Todo() == {} && w.at.First()
    ensures var (d, at) := Call1(s, c, k, w); Pass1Inv(s, d, w.(at := at)) && !at.Second()
  {
    if w.at.InPass1() && !w.at.ReadRecord? {
      Call1KeepsLate(s, c, k, w);
    } else {
      Call1KeepsEarly(s, c, k, w);
    }
  }

  lemma Call2KeepsFiles(s: State, c: Cluster, k: Agent, w: Sweeper)
    requires ClusterInv(w.id, c) && Pass1Inv(s, c, w) && Pass2Inv(c, w) && w.at.Second()
    ensures var d := Call2(s, c, k, w).0; RecordInv(w.id, d) && DirInv(d) && Later(c, d)
  {
  }

  lemma Call2KeepsLockInv(s: State, c: Cluster, k: Agent, w: Sweeper)
    requires ClusterInv(w.id, c) && Pass1Inv(s, c, w) && Pass2Inv(c, w) && HoldsOnly(c, k, w.at) && w.at.Second()
    ensures LockInv(Call2(s, c, k, w).0)
  {
  }

  lemma Call2KeepsLocks(s: State, c: Cluster, k: Agent, w: Sweeper)
    requires HoldsOnly(c, k, w.at) && w.at.Second()
    ensures var (d, at) := Call2(s, c, k, w); SameForOthers(c, d, k) && HoldsOnly(d, k, at)
  {
    var (d, at) := Call2(s, c, k, w);
    if w.at.Flock2? {
      TryFlockKeepsLocks(c, k, w.at.inode, w.at, Release2(w.at.inode));
    } else if at.Locks() != w.at.Locks() {
      UnlockKeepsLocks(c, k, w.at.inode, w.at, at);
    } else {
      assert d.held == c.held;
    }
  }

  lemma Call2KeepsEarly(s: State, c: Cluster, k: Agent, w: Sweeper)
    requires ClusterInv(w.id, c) && Pass1Inv(s, c, w) && Pass2Inv(c, w) && w.at.Todo() == {} && w.at.Second() && !w.at.Reclaiming2()
    ensures var (d, at) := Call2(s, c, k, w); Pass2Inv(d, w.(at := at)) && !at.First()
  {
  }

  lemma Call2KeepsLate(s: State, c: Cluster, k: Agent, w: Sweeper)
    requires ClusterInv(w.id, c) && Pass1Inv(s, c, w) && Pass2Inv(c, w) && w.at.Todo() == {} && w.at.Reclaiming2()
    ensures var (d, at) := Call2(s, c, k, w); Pass2Inv(d, w.(at := at)) && !at.First()
  {
  }

  lemma Call2KeepsSweeper(s: State, c: Cluster, k: Agent, w: Sweeper)
    requires ClusterInv(w.id, c) && Pass1Inv(s, c, w) && Pass2Inv(c, w) && w.at.Todo() == {} && w.at.Second()
    ensures var (d, at) := Call2(s, c, k, w); Pass2Inv(d, w.(at := at)) && !at.First()
  {
    if w.at.Reclaiming2() {
      Call2KeepsLate(s, c, k, w);
    } else {
      Call2KeepsEarly(s, c, k, w);
    }
  }

  lemma Call3KeepsFiles(s: State, c: Cluster, k: Agent, w: Sweeper)
    requires ClusterInv(w.id, c) && Pass1Inv(s, c, w) && Pass2Inv(c, w) && w.at.Third()
    ensures var d := Call3(c, k, w).0; RecordInv(w.id, d) && DirInv(d) && Later(c, d)
  {
  }

  lemma Call3KeepsLockInv(s: State, c: Cluster, k: Agent, w: Sweeper)
    requires ClusterInv(w.id, c) && Pass1Inv(s, c, w) && Pass2Inv(c, w) && HoldsOnly(c, k, w.at) && w.at.Third()
    ensures LockInv(Call3(c, k, w).0)
  {
  }

  lemma Call3KeepsLocks(s: State, c: Cluster, k: Agent, w: Sweeper)
    requires HoldsOnly(c, k, w.at) && w.at.Third()
    ensures var (d, at) := Call3(c, k, w); SameForOthers(c, d, k) && HoldsOnly(d, k, at)
  {
    var (d, at) := Call3(c, k, w);
    if w.at.Flock3? {
      TryFlockKeepsLocks(c, k, w.at.inode, w.at, Release3(w.at.inode));
    } else if at.Locks() != w.at.Locks() {
      UnlockKeepsLocks(c, k, w.at.inode, w.at, at);
    } else {
      assert d.held == c.held;
    }
  }

  lemma Call3KeepsSweeper(s: State, c: Cluster, k: Agent, w: Sweeper)
    requires ClusterInv(w.id, c) && Pass1Inv(s, c, w) && Pass2Inv(c, w) && w.at.Todo() == {} && w.at.Third()
    ensures var (d, at) := Call3(c, k, w); !at.First() && !at.Second()
  {
  }

  lemma CallKeeps(s: State, c: Cluster, k: Agent, w: Sweeper)
    requires ClusterInv(w.id, c) && SweeperInv(s, c, k, w) && HoldsOnly(c, k, w.at)
    requires !w.at.Idle? && w.at.Todo() == {}
    ensures var (d, at) := Call(s, c, k, w);
            && ClusterInv(w.id, d) && Later(c, d) && SameForOthers(c, d, k) && HoldsOnly(d, k, at)
            && Pass1Inv(s, d, w.(at := at)) && Pass2Inv(d, w.(at := at))
  {
    if w.at.First() {
      Call1KeepsFiles(s, c, k, w);
      Call1KeepsLockInv(s, c, k, w);
      Call1KeepsLocks(s, c, k, w);
      Call1KeepsSweeper(s, c, k, w);
    } else if w.at.Second() {
      Call2KeepsFiles(s, c, k, w);
      Call2KeepsLockInv(s, c, k, w);
      Call2KeepsLocks(s, c, k, w);
      Call2KeepsSweeper(s, c, k, w);
    } else {
      Call3KeepsFiles(s, c, k, w);
      Call3KeepsLockInv(s, c, k, w);
      Call3KeepsLocks(s, c, k, w);
      Call3KeepsSweeper(s, c, k, w);
    }
  }

  /** What the directory's removal adds to a call, as records name only their own directory. */
  function AfterCall(s: State, c: Cluster, k: Agent, w: Sweeper): Cluster {
    var d := Call(s, c, k, w).0;
    if w.at.RemoveDir1? && w.at.record.owns then d.(dir := None) else d
  }

  lemma AdvancedAsOne(s: State, k: Agent)
    requires Inv(s) && Enabled(s, Advance(k))
    ensures var w := s.sweepers[k]; var c := s.clusters[w.id];
            Advanced(s, k) == s.Put(w.id, AfterCall(s, c, k, w)).Go(k, Call(s, c, k, w).1)
  {
    assert SweepInv(s, k) && ClusterInv(s.sweepers[k].id, s.clusters[s.sweepers[k].id]);
  }

  lemma RemovalKeeps(s: State, c: Cluster, k: Agent, w: Sweeper)
    requires ClusterInv(w.id, c) && SweeperInv(s, c, k, w) && w.at.RemoveDir1?
    ensures ClusterInv(w.id, c.(dir := None)) && Later(c, c.(dir := None))
  {
  }

  lemma ReadyToCall(s: State, k: Agent)
    requires Inv(s) && Enabled(s, Advance(k))
    ensures var w := s.sweepers[k]; var c := s.clusters[w.id];
            ClusterInv(w.id, c) && SweeperInv(s, c, k, w) && HoldsOnly(c, k, w.at)
  {
    assert SweepInv(s, k) && ClusterInv(s.sweepers[k].id, s.clusters[s.sweepers[k].id]) && HolderInv(s, s.sweepers[k].id);
  }

  lemma AdvanceKeepsCluster(s: State, k: Agent)
    requires Inv(s) && Enabled(s, Advance(k))
    ensures var w := s.sweepers[k]; var c := s.clusters[w.id];
            var d, at := AfterCall(s, c, k, w), Call(s, c, k, w).1;
            && ClusterInv(w.id, d) && Later(c, d) && SameForOthers(c, d, k) && HoldsOnly(d, k, at)
            && Pass1Inv(s, d, w.(at := at)) && Pass2Inv(d, w.(at := at))
  {
    var w := s.sweepers[k];
    var c := s.clusters[w.id];
    ReadyToCall(s, k);
    CallKeeps(s, c, k, w);
    if w.at.RemoveDir1? {
      RemovalKeeps(s, c, k, w);
    }
  }

  lemma AdvanceKeepsSweepers(s: State, k: Agent)
    requires Inv(s) && Enabled(s, Advance(k))
    ensures forall k' :: SweepInv(Advanced(s, k), k')
  {
    var t := Advanced(s, k);
    AdvancedAsOne(s, k);
    AdvanceKeepsCluster(s, k);
    forall k' ensures SweepInv(t, k') {
      assert SweepInv(s, k');
      if k' != k && k' in s.sweepers && !s.sweepers[k'].at.Idle? {
        var w' := s.sweepers[k'];
        SweeperStays(s, t, s.clusters[w'.id], t.clusters[w'.id], k', w');
      }
    }
  }

  lemma AdvanceKeepsClusters(s: State, k: Agent)
    requires Inv(s) && Enabled(s, Advance(k))
    ensures forall id | id in Advanced(s, k).clusters :: ClusterInv(id, Advanced(s, k).clusters[id])
    ensures forall id :: HolderInv(Advanced(s, k), id)
  {
    var t := Advanced(s, k);
    AdvancedAsOne(s, k);
    AdvanceKeepsCluster(s, k);
    forall id ensures HolderInv(t, id) {
      assert HolderInv(s, id);
    }
  }

  /** A call changes nothing in the owner, and takes a record away only when no server is left. */
  ghost predicate LeavesOwner(c: Cluster, d: Cluster, at: At) {
    && d.owner == c.owner && d.dogged == c.dogged && d.strayed == c.strayed
    && (c.record.Some? && d.record.None? ==> at.RemoveRecord1?)
  }

  lemma Call1LeavesOwner(s: State, c: Cluster, k: Agent, w: Sweeper)
    ensures LeavesOwner(c, Call1(s, c, k, w).0, w.at)
  {
    if w.at.InPass1() {
      assert Call1(s, c, k, w).0.owner == c.owner;
    }
  }

  lemma Call2LeavesOwner(s: State, c: Cluster, k: Agent, w: Sweeper)
    ensures LeavesOwner(c, Call2(s, c, k, w).0, w.at)
  {
  }

  lemma CallLeavesOwner(s: State, c: Cluster, k: Agent, w: Sweeper)
    ensures LeavesOwner(c, AfterCall(s, c, k, w), w.at)
  {
    if w.at.First() {
      Call1LeavesOwner(s, c, k, w);
    } else if w.at.Second() {
      Call2LeavesOwner(s, c, k, w);
    }
  }

  lemma AdvanceKeepsProc(s: State, k: Agent, pid: Pid)
    requires Inv(s) && Enabled(s, Advance(k))
    ensures ProcInv(Advanced(s, k), pid)
  {
    var w := s.sweepers[k];
    AdvancedAsOne(s, k);
    CallLeavesOwner(s, s.clusters[w.id], k, w);
    assert SweepInv(s, k) && ProcInv(s, pid) && ClusterInv(w.id, s.clusters[w.id]);
    if w.at.RemoveRecord1? && pid in s.procs && s.clusters[w.id].owner.saved.value.owns {
      assert pid !in s.Using(Library(w.id));
    }
  }

  lemma AdvanceKeeps(s: State, k: Agent)
    requires Inv(s) && Enabled(s, Advance(k))
    ensures Inv(Advanced(s, k))
  {
    var w, t := s.sweepers[k], Advanced(s, k);
    AdvancedAsOne(s, k);
    AdvanceKeepsSweepers(s, k);
    AdvanceKeepsClusters(s, k);
    AdvanceKeepsCluster(s, k);
    CallLeavesOwner(s, s.clusters[w.id], k, w);
    forall pid ensures ProcInv(t, pid) { AdvanceKeepsProc(s, k, pid); }
    forall id ensures ServersInv(t, id) { assert ServersInv(s, id); }
  }

  // -------- Everything else --------

  /** A kill shrinks what is using a directory, and may mark the victim's cluster. */
  lemma KillChanges(s: State, k: Agent, pid: Pid)
    requires k in s.sweepers
    ensures var t := KillOne(s, k, pid);
            && t.clusters.Keys == s.clusters.Keys
            && (forall id | id in s.clusters :: t.clusters[id] == s.clusters[id].(strayed := t.clusters[id].strayed))
            && (forall p | p in t.procs :: p in s.procs && t.procs[p] == s.procs[p])
            && t.sweepers == s.sweepers[k := s.sweepers[k].(at := s.sweepers[k].at.DropTodo(pid))]
  {
  }

  lemma KillKeepsOthers(s: State, k: Agent, pid: Pid, k': Agent)
    requires Enabled(s, Kill(k, pid)) && SweepInv(s, k') && k' != k
    ensures SweepInv(KillOne(s, k, pid), k')
  {
    var t := KillOne(s, k, pid);
    KillChanges(s, k, pid);
    if k' in s.sweepers && !s.sweepers[k'].at.Idle? {
      var w := s.sweepers[k'];
      assert t.Using(Library(w.id)) <= s.Using(Library(w.id));
      SweeperStays(s, t, s.clusters[w.id], t.clusters[w.id], k', w);
    }
  }

  lemma KillKeepsSweeper(s: State, k: Agent, pid: Pid)
    requires Enabled(s, Kill(k, pid)) && SweepInv(s, k)
    requires s.sweepers[k].id in s.clusters && ClusterInv(s.sweepers[k].id, s.clusters[s.sweepers[k].id])
    ensures SweepInv(KillOne(s, k, pid), k)
  {
    var t, w := KillOne(s, k, pid), s.sweepers[k];
    KillChanges(s, k, pid);
    assert t.Using(Library(w.id)) <= s.Using(Library(w.id));
    assert w.Target() == Library(w.id) && !w.at.KillRecorded? ==> pid !in t.Using(Library(w.id));
  }

  /** Whoever is killed for a library directory belongs to a cluster that is over, or exposed. */
  lemma Victim(s: State, k: Agent, pid: Pid)
    requires Inv(s) && Enabled(s, Kill(k, pid)) && pid in s.procs && s.procs[pid].Names(s.sweepers[k].Target())
    ensures s.procs[pid].home in s.clusters
    ensures var c := s.clusters[s.procs[pid].home];
            s.sweepers[k].Target().Library? ==> c.Over() || c.exposed
  {
    assert SweepInv(s, k) && ProcInv(s, pid) && ClusterInv(s.sweepers[k].id, s.clusters[s.sweepers[k].id]);
  }

  lemma KillKeepsClusters(s: State, k: Agent, pid: Pid)
    requires Inv(s) && Enabled(s, Kill(k, pid))
    ensures var t := KillOne(s, k, pid);
            (forall id | id in t.clusters :: ClusterInv(id, t.clusters[id]))
  {
    var t := KillOne(s, k, pid);
    KillChanges(s, k, pid);
    forall id | id in t.clusters ensures ClusterInv(id, t.clusters[id]) { assert ClusterInv(id, s.clusters[id]); }
  }

  lemma KillKeepsHolders(s: State, k: Agent, pid: Pid)
    requires Inv(s) && Enabled(s, Kill(k, pid))
    ensures forall id :: HolderInv(KillOne(s, k, pid), id)
  {
    var t := KillOne(s, k, pid);
    KillChanges(s, k, pid);
    forall id ensures HolderInv(t, id) { assert HolderInv(s, id); }
  }

  lemma KillKeepsProcs(s: State, k: Agent, pid: Pid)
    requires Inv(s) && Enabled(s, Kill(k, pid))
    ensures forall p :: ProcInv(KillOne(s, k, pid), p)
  {
    var t := KillOne(s, k, pid);
    KillChanges(s, k, pid);
    forall p ensures ProcInv(t, p) { assert ProcInv(s, p); }
  }

  lemma KillKeeps(s: State, k: Agent, pid: Pid)
    requires Inv(s) && Enabled(s, Kill(k, pid))
    ensures Inv(KillOne(s, k, pid))
  {
    var t := KillOne(s, k, pid);
    KillChanges(s, k, pid);
    KillKeepsClusters(s, k, pid);
    KillKeepsHolders(s, k, pid);
    KillKeepsProcs(s, k, pid);
    assert SweepInv(s, k);
    KillKeepsSweeper(s, k, pid);
    forall k' | k' != k ensures SweepInv(t, k') { KillKeepsOthers(s, k, pid, k'); }
    forall id ensures ServersInv(t, id) { KillKeepsServers(s, k, pid, id); }
  }

  lemma KillKeepsServers(s: State, k: Agent, pid: Pid, id: Id)
    requires Inv(s) && Enabled(s, Kill(k, pid))
    ensures ServersInv(KillOne(s, k, pid), id)
  {
    var t := KillOne(s, k, pid);
    KillChanges(s, k, pid);
    assert ServersInv(s, id);
    if pid in s.procs && s.sweepers[k].Kills(pid, s.procs[pid]) {
      assert ProcInv(s, pid);
      Victim(s, k, pid);
      assert s.procs[pid].home == id ==> pid in t.clusters[id].strayed || s.sweepers[k].Target().Library?;
    } else {
      assert t.procs == s.procs;
    }
  }

  lemma ExitKeeps(s: State, pid: Pid)
    requires Inv(s) && pid in s.procs
    ensures Inv(Exited(s, pid))
  {
    var t, home := Exited(s, pid), s.procs[pid].home;
    assert ProcInv(s, pid) && ClusterInv(home, s.clusters[home]);
    OneCluster(s, t, home, t.clusters[home]);
    forall p ensures ProcInv(t, p) { assert ProcInv(s, p); }
    forall id ensures ServersInv(t, id) { assert ServersInv(s, id); }
  }

  lemma TouchKeeps(s: State, pid: Pid)
    requires Inv(s) && Enabled(s, Touch(pid))
    ensures Inv(Touched(s, s.procs[pid].home))
  {
    var home := s.procs[pid].home;
    var t := Touched(s, home);
    assert ProcInv(s, pid) && ClusterInv(home, s.clusters[home]);
    OneCluster(s, t, home, t.clusters[home]);
    forall p ensures ProcInv(t, p) { assert ProcInv(s, p); }
    forall id ensures ServersInv(t, id) { assert ServersInv(s, id); }
  }

  lemma ClaimKeeps(s: State, id: Id, registry: nat)
    requires Inv(s) && id !in s.clusters
    ensures Inv(s.Put(id, Claimant(registry)))
  {
    var t := s.Put(id, Claimant(registry));
    forall x | x in t.clusters ensures ClusterInv(x, t.clusters[x]) {
      assert x != id ==> ClusterInv(x, s.clusters[x]);
    }
    forall k ensures SweepInv(t, k) { assert SweepInv(s, k); }
    forall x ensures HolderInv(t, x) { assert HolderInv(s, x); }
    forall p ensures ProcInv(t, p) { assert ProcInv(s, p); }
    forall x ensures ServersInv(t, x) { assert ServersInv(s, x); }
  }

  /** Steps that change sweepers alone: joining, and taking up a listed entry. */
  lemma TakeKeeps(s: State, t: State, k: Agent)
    requires Inv(s) && k in t.sweepers && t == s.(sweepers := s.sweepers[k := t.sweepers[k]])
    requires k in s.sweepers ==> s.sweepers[k].at.Locks() == {}
    requires t.sweepers[k].at.Locks() == {} && SweepInv(t, k)
    ensures Inv(t)
  {
    forall k' ensures SweepInv(t, k') { assert SweepInv(s, k'); }
    forall id ensures HolderInv(t, id) { assert HolderInv(s, id); }
    forall p ensures ProcInv(t, p) { assert ProcInv(s, p); }
    forall id ensures ServersInv(t, id) { assert ServersInv(s, id); }
  }

  lemma ListKeeps(s: State, k: Agent, id: Id, at: At)
    requires Inv(s) && AtRest(s, k, id)
    requires || (at == OpenLock1 && Enabled(s, List1(k, id)))
             || (at == StatRecord2 && Enabled(s, List2(k, id)))
             || (at == StatRecord3 && Enabled(s, List3(k, id)))
    ensures Inv(Take(s, k, id, at))
  {
    assert ClusterInv(id, s.clusters[id]);
    TakeKeeps(s, Take(s, k, id, at), k);
  }

  lemma DeathKeepsSweepers(s: State, k: Agent)
    requires Inv(s) && k in s.sweepers
    ensures var t := SweeperDied(s, k); (forall k' :: SweepInv(t, k')) && forall id :: HolderInv(t, id)
  {
    var w, t := s.sweepers[k], SweeperDied(s, k);
    assert SweepInv(s, k);
    forall k' ensures SweepInv(t, k') { assert SweepInv(s, k'); }
    forall id ensures HolderInv(t, id) { assert HolderInv(s, id); }
  }

  lemma DeathKeeps(s: State, k: Agent)
    requires Inv(s) && k in s.sweepers
    ensures Inv(SweeperDied(s, k))
  {
    var t := SweeperDied(s, k);
    DeathKeepsSweepers(s, k);
    assert SweepInv(s, k);
    forall id | id in t.clusters ensures ClusterInv(id, t.clusters[id]) { assert ClusterInv(id, s.clusters[id]); }
    forall p ensures ProcInv(t, p) { assert ProcInv(s, p); }
    forall id ensures ServersInv(t, id) { assert ServersInv(s, id); }
  }

  lemma TickKeeps(s: State, elapsed: nat)
    requires Inv(s)
    ensures Inv(s.(now := s.now + elapsed))
  {
    var t := s.(now := s.now + elapsed);
    forall k ensures SweepInv(t, k) { assert SweepInv(s, k); }
    forall id ensures HolderInv(t, id) { assert HolderInv(s, id); }
    forall p ensures ProcInv(t, p) { assert ProcInv(s, p); }
    forall id ensures ServersInv(t, id) { assert ServersInv(s, id); }
  }

  lemma StepKeeps(s: State, step: Step)
    requires Inv(s) && Enabled(s, step)
    ensures Inv(Apply(s, step))
  {
    match step
    case Claim(id, registry) => ClaimKeeps(s, id, registry);
    case Own(id, o) => OwnerStepKeeps(s, id, o);
    case Exit(pid) => ExitKeeps(s, pid);
    case Touch(pid) => TouchKeeps(s, pid);
    case Tick(elapsed) => TickKeeps(s, elapsed);
    case Join(k, _) => TakeKeeps(s, Apply(s, step), k);
    case List1(k, id) => ListKeeps(s, k, id, OpenLock1);
    case List2(k, id) => ListKeeps(s, k, id, StatRecord2);
    case List3(k, id) => ListKeeps(s, k, id, StatRecord3);
    case Advance(k) => AdvanceKeeps(s, k);
    case Kill(k, pid) => KillKeeps(s, k, pid);
    case SweeperDies(k) => DeathKeeps(s, k);
  }

  lemma {:induction false} RunKeeps(s: State, steps: seq<Step>)
    requires Inv(s) && Legal(s, steps)
    ensures Inv(Exec(s, steps))
    decreases |steps|
  {
    if steps != [] {
      StepKeeps(s, steps[0]);
      RunKeeps(Apply(s, steps[0]), steps[1..]);
    }
  }
}
