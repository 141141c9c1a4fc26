/** What the calls of a sweeper of `Protocol` that nobody disturbs make of one record, one
    directory or one lock (registry.go:260-307, registry.go:324-359, registry.go:378-390): where it
    is at every call, and that the end is what `Sweep` says. */
module EntryCalls {
  import opened Registry
  import opened Wrappers
  import opened Protocol
  import opened Safety
  import opened Recovery
  import Sweep

  /** Sweeper `k` of `registry`, run by process `self`, is between entries and so is everybody
      else. */
  ghost predicate Ready(s: State, k: Agent, registry: nat, self: Pid) {
    Quiet(s) && k in s.sweepers && s.sweepers[k].registry == registry && self !in s.procs
  }

  // -------- What the marks do not matter to --------

  /** A cluster without the marks that only remember. */
  function Plain(c: Cluster): Cluster { c.(unlinked := false, exposed := false, strayed := {}) }

  /** Nothing but marks has changed. */
  ghost predicate SameClusters(s: State, t: State) {
    t.clusters.Keys == s.clusters.Keys && forall id | id in s.clusters :: Plain(t.clusters[id]) == Plain(s.clusters[id])
  }

  /** Only the cluster of `id` has changed, and it stays in its registry. */
  ghost predicate OnlyOne(s: State, t: State, id: Id) {
    && id in s.clusters && t.clusters.Keys == s.clusters.Keys && t.now == s.now
    && (forall x | x in s.clusters && x != id :: Plain(t.clusters[x]) == Plain(s.clusters[x]))
    && t.clusters[id].registry == s.clusters[id].registry
  }

  ghost predicate SameRecord(c: Cluster, d: Cluster) { d.registry == c.registry && d.record == c.record }
  ghost predicate SameLock(c: Cluster, d: Cluster) { d.registry == c.registry && d.lock == c.lock }

  lemma RecordsKept(s: State, t: State, registry: nat)
    requires t.clusters.Keys == s.clusters.Keys && forall x | x in s.clusters :: SameRecord(s.clusters[x], t.clusters[x])
    ensures RecordsOf(t, registry) == RecordsOf(s, registry)
  {
  }

  lemma RecordGone(s: State, t: State, registry: nat, id: Id)
    requires t.clusters.Keys == s.clusters.Keys && id in s.clusters && t.clusters[id].record.None?
    requires forall x | x in s.clusters && x != id :: SameRecord(s.clusters[x], t.clusters[x])
    ensures RecordsOf(t, registry) == RecordsOf(s, registry) - {id}
  {
  }

  lemma LocksKept(s: State, t: State, registry: nat)
    requires t.clusters.Keys == s.clusters.Keys && forall x | x in s.clusters :: SameLock(s.clusters[x], t.clusters[x])
    ensures LocksOf(t, registry) == LocksOf(s, registry)
  {
  }

  lemma LockGone(s: State, t: State, registry: nat, id: Id)
    requires t.clusters.Keys == s.clusters.Keys && id in s.clusters && t.clusters[id].lock.None?
    requires forall x | x in s.clusters && x != id :: SameLock(s.clusters[x], t.clusters[x])
    ensures LocksOf(t, registry) == LocksOf(s, registry) - {id}
  {
  }

  lemma SeenOfMoved(s: State, t: State, registry: nat, self: Pid)
    requires SameClusters(s, t) && t.procs == s.procs && t.now == s.now
    ensures Seen(t, registry, self) == Seen(s, registry, self)
  {
    forall x | x in s.clusters
      ensures SameRecord(s.clusters[x], t.clusters[x]) && SameLock(s.clusters[x], t.clusters[x])
    {
      assert Plain(t.clusters[x]) == Plain(s.clusters[x]);
    }
    RecordsKept(s, t, registry);
    LocksKept(s, t, registry);
    SeenDirsOfMoved(s, t);
  }

  lemma SeenDirsOfMoved(s: State, t: State)
    requires SameClusters(s, t)
    ensures DirsOf(t) == DirsOf(s) && Recovery.Held(t) == Recovery.Held(s)
  {
    assert LibraryDirs(s) == LibraryDirs(t);
  }

  lemma SeenRecords(s: State, t: State, registry: nat, id: Id)
    requires OnlyOne(s, t, id)
    ensures t.clusters[id].record == s.clusters[id].record ==> RecordsOf(t, registry) == RecordsOf(s, registry)
    ensures t.clusters[id].record.None? ==> RecordsOf(t, registry) == RecordsOf(s, registry) - {id}
  {
    forall x | x in s.clusters && x != id ensures SameRecord(s.clusters[x], t.clusters[x]) {
      assert Plain(t.clusters[x]) == Plain(s.clusters[x]);
    }
    if t.clusters[id].record.None? {
      RecordGone(s, t, registry, id);
    }
    if t.clusters[id].record == s.clusters[id].record {
      RecordsKept(s, t, registry);
    }
  }

  lemma SeenLocks(s: State, t: State, registry: nat, id: Id)
    requires OnlyOne(s, t, id)
    ensures t.clusters[id].lock == s.clusters[id].lock ==> LocksOf(t, registry) == LocksOf(s, registry)
    ensures t.clusters[id].lock.None? ==> LocksOf(t, registry) == LocksOf(s, registry) - {id}
  {
    forall x | x in s.clusters && x != id ensures SameLock(s.clusters[x], t.clusters[x]) {
      assert Plain(t.clusters[x]) == Plain(s.clusters[x]);
    }
    if t.clusters[id].lock.None? {
      LockGone(s, t, registry, id);
    }
    if t.clusters[id].lock == s.clusters[id].lock {
      LocksKept(s, t, registry);
    }
  }

  lemma SeenHeld(s: State, t: State, id: Id)
    requires OnlyOne(s, t, id) && t.clusters[id].held == s.clusters[id].held
    ensures Recovery.Held(t) == Recovery.Held(s)
  {
    assert forall x | x in s.clusters :: t.clusters[x].held == s.clusters[x].held;
  }

  lemma SeenDirs(s: State, t: State, id: Id)
    requires OnlyOne(s, t, id)
    ensures t.clusters[id].dir == s.clusters[id].dir ==> DirsOf(t) == DirsOf(s)
    ensures t.clusters[id].dir.None? ==> DirsOf(t) == DirsOf(s) - {Library(id)}
  {
    if t.clusters[id].dir.None? {
      assert LibraryDirs(t) == LibraryDirs(s) - {Library(id)};
    } else if t.clusters[id].dir == s.clusters[id].dir {
      assert LibraryDirs(t) == LibraryDirs(s);
    }
  }

  // -------- One entry, call by call --------

  /** The processes a record's sweep kills: the servers it lists, */
  predicate Recorded(r: Record, pid: Pid, p: Proc) {
    && p.Names(r.dataPath)
    && exists v | v in r.servers :: v.pid == pid && pid > 0 && v.binary != "" && v.binary in p.process.binaries
  }

  /** and whatever uses a library directory it owns. */
  predicate Using1(r: Record, p: Proc) { r.owns && r.dataPath.Library? && p.Names(r.dataPath) }

  predicate Dooms(r: Record, pid: Pid, p: Proc) { Recorded(r, pid, p) || Using1(r, p) }

  /** An entry of a pass: a record of the registry, a library directory, or a lock of the
      registry. */
  ghost predicate Entry(b: State, k: Agent, id: Id, pass: nat) {
    && k in b.sweepers && id in b.clusters
    && var c := b.clusters[id];
    && (pass == 1 ==> c.Ours(b.sweepers[k]) && c.record.Some? && Fits(id, c.record.value))
    && (pass == 2 ==> c.dir.Some?)
    && (pass == 3 ==> c.Ours(b.sweepers[k]) && c.lock.Some?)
  }

  predicate InPass(at: At, pass: nat) {
    if pass == 1 then at.First() else if pass == 2 then at.Second() else at.Third()
  }

  /** The lock path is there and nobody holds its inode. */
  predicate FreeLock(c: Cluster) { c.lock.Some? && c.lock.value !in c.held }

  /** The second pass reclaims the directory. */
  predicate Strands(b: State, c: Cluster, w: Sweeper, id: Id) {
    && c.dir.Some? && !(c.Ours(w) && c.record.Some?)
    && if c.Ours(w) && c.lock.Some? then c.lock.value !in c.held
       else b.now - c.dir.value >= GRACE && b.Using(Library(id)) == {}
  }

  /** What a sweeper at `at` has learnt of the cluster, as it was when the entry was taken up. */
  predicate Knows1(c: Cluster, at: At) {
    && (at.Flock1? ==> c.lock == Some(at.inode))
    && (at.InPass1() ==> c.lock == Some(at.inode) && at.inode !in c.held)
    && (at.KillRecorded? || at.Enumerate1? || at.KillUsing1? || at.RemoveDir1? ==> c.record == Some(at.record))
    && (at.KillUsing1? && at.todo != {} ==> at.record.owns && at.record.dataPath.Library?)
  }

  predicate Knows2(b: State, c: Cluster, w: Sweeper, id: Id, at: At) {
    && (at.Second() && !at.StatRecord2? ==> !(c.Ours(w) && c.record.Some?))
    && (at.OpenLock2? || at.Flock2? || at.Release2? ==> c.Ours(w) && c.lock.Some?)
    && (at.Flock2? || at.Release2? ==> c.lock == Some(at.inode))
    && (at.Release2? ==> at.inode !in c.held)
    && (at.CheckAge2? || at.CheckUse2? ==> !(c.Ours(w) && c.lock.Some?))
    && (at.CheckUse2? ==> c.dir.Some? && b.now - c.dir.value >= GRACE)
    && (at.Reclaiming2() ==> Strands(b, c, w, id))
  }

  predicate Knows3(c: Cluster, at: At) {
    && (at.Third() && !at.StatRecord3? ==> c.record.None?)
    && (at.Flock3? || at.Release3? ==> c.lock == Some(at.inode))
    && (at.Release3? ==> at.inode !in c.held)
    && (at.Unlink3? ==> FreeLock(c))
  }

  /** What has become of the cluster by then. */
  function Shape(c: Cluster, k: Agent, at: At): Cluster {
    var swept := at.RemoveRecord1? || at.RemoveLock1? || at.Release1?;
    c.(held := if at.InPass1() || at.Release2? || at.Release3? then c.held[at.inode := BySweeper(k)] else c.held,
       dir := if (swept && c.record.Some? && c.record.value.owns) || at.RemoveLock2? then None else c.dir,
       record := if at.RemoveLock1? || at.Release1? then None else c.record,
       lock := if at.Release1? then None else c.lock)
  }

  /** Process `pid` has been killed by then. */
  predicate Gone(id: Id, record: Option<Record>, at: At, pid: Pid, p: Proc) {
    if at.InPass1() then record.Some? && Gone1(record.value, at, pid, p)
    else if at.KillUsing2? then p.Names(Library(id)) && pid !in at.todo
    else (at.RemoveDir2? || at.RemoveLock2?) && p.Names(Library(id))
  }

  predicate Gone1(r: Record, at: At, pid: Pid, p: Proc) {
    if at.ReadRecord? then false
    else if at.KillRecorded? then Recorded(r, pid, p) && pid !in at.todo
    else if at.Enumerate1? then Recorded(r, pid, p)
    else if at.KillUsing1? then Recorded(r, pid, p) || (Using1(r, p) && pid !in at.todo)
    else Dooms(r, pid, p)
  }

  /** Since `b`, only sweeper `k` has done anything, and only with the entry `id`. */
  ghost predicate Frame(b: State, s: State, k: Agent, id: Id) {
    && k in b.sweepers && k in s.sweepers && OnlyOne(b, s, id)
    && s.sweepers == b.sweepers[k := Sweeper(b.sweepers[k].registry, id, s.sweepers[k].at)]
    && forall pid | pid in s.procs :: pid in b.procs && s.procs[pid] == b.procs[pid]
  }

  ghost predicate Killed(b: State, s: State, id: Id, at: At) {
    id in b.clusters
    && forall pid | pid in b.procs :: pid in s.procs <==> !Gone(id, b.clusters[id].record, at, pid, b.procs[pid])
  }

  ghost predicate Knows(b: State, k: Agent, id: Id, at: At) {
    && k in b.sweepers && id in b.clusters
    && Knows1(b.clusters[id], at) && Knows2(b, b.clusters[id], b.sweepers[k], id, at) && Knows3(b.clusters[id], at)
  }

  /** Sweeper `k`, which took up the entry `id` in `b`, is at work on it. */
  ghost predicate Doing(b: State, s: State, k: Agent, id: Id, pass: nat) {
    && Frame(b, s, k, id)
    && var at := s.sweepers[k].at;
    && InPass(at, pass) && Knows(b, k, id, at)
    && Plain(s.clusters[id]) == Shape(Plain(b.clusters[id]), k, at)
    && Killed(b, s, id, at)
  }

  // -------- Kills --------

  lemma KillGoesOn(b: State, s: State, k: Agent, id: Id, pass: nat, pid: Pid)
    requires Doing(b, s, k, id, pass) && pid in s.sweepers[k].at.Todo()
    ensures Doing(b, KillOne(s, k, pid), k, id, pass)
  {
    var t, at := KillOne(s, k, pid), s.sweepers[k].at;
    KillChanges(s, k, pid);
    KillKillsOne(b, s, k, id, pass, pid);
    DropKeeps(b, k, id, pass, at, pid);
    assert t.clusters[id] == s.clusters[id].(strayed := t.clusters[id].strayed);
  }

  /** A sweeper with one pid less to kill has learnt no less and changed no file. */
  lemma DropKeeps(b: State, k: Agent, id: Id, pass: nat, at: At, pid: Pid)
    requires Knows(b, k, id, at) && InPass(at, pass) && pid in at.Todo()
    ensures Knows(b, k, id, at.DropTodo(pid)) && InPass(at.DropTodo(pid), pass)
    ensures Shape(Plain(b.clusters[id]), k, at.DropTodo(pid)) == Shape(Plain(b.clusters[id]), k, at)
  {
  }

  lemma KillKillsOne(b: State, s: State, k: Agent, id: Id, pass: nat, pid: Pid)
    requires Doing(b, s, k, id, pass) && pid in s.sweepers[k].at.Todo()
    ensures Killed(b, KillOne(s, k, pid), id, s.sweepers[k].at.DropTodo(pid))
  {
    forall p | p in b.procs
      ensures p in KillOne(s, k, pid).procs <==>
                !Gone(id, b.clusters[id].record, s.sweepers[k].at.DropTodo(pid), p, b.procs[p])
    {
      OneMoreGone(b, s, k, id, pass, pid, p);
    }
  }

  lemma OneMoreGone(b: State, s: State, k: Agent, id: Id, pass: nat, pid: Pid, p: Pid)
    requires Doing(b, s, k, id, pass) && pid in s.sweepers[k].at.Todo() && p in b.procs
    ensures p in KillOne(s, k, pid).procs <==>
              !Gone(id, b.clusters[id].record, s.sweepers[k].at.DropTodo(pid), p, b.procs[p])
  {
  }

  // -------- Calls --------

  /** What becomes of the cluster of an entry in the end. */
  function Final(b: State, c: Cluster, w: Sweeper, id: Id, pass: nat): Cluster {
    if pass == 1 && FreeLock(c) then
      c.(dir := if c.record.Some? && c.record.value.owns then None else c.dir, record := None, lock := None)
    else if pass == 2 && Strands(b, c, w, id) then c.(dir := None, lock := if c.Ours(w) then None else c.lock)
    else if pass == 3 && c.record.None? && FreeLock(c) then c.(lock := None)
    else c
  }

  /** Process `pid` dies of the entry. */
  predicate Dies(b: State, c: Cluster, w: Sweeper, id: Id, pass: nat, pid: Pid, p: Proc) {
    || (pass == 1 && FreeLock(c) && c.record.Some? && Dooms(c.record.value, pid, p))
    || (pass == 2 && Strands(b, c, w, id) && p.Names(Library(id)))
  }

  /** Sweeper `k`, which took up the entry `id` in `b`, has finished with it. */
  ghost predicate Done(b: State, s: State, k: Agent, id: Id, pass: nat) {
    && Frame(b, s, k, id) && s.sweepers[k].at.Idle?
    && Plain(s.clusters[id]) == Plain(Final(b, b.clusters[id], b.sweepers[k], id, pass))
    && forall pid | pid in b.procs ::
         pid in s.procs <==> !Dies(b, b.clusters[id], b.sweepers[k], id, pass, pid, b.procs[pid])
  }

  /** The cluster `d` of an entry that was `c`, once the sweeper's next call is `next`. */
  ghost predicate Went(b: State, c: Cluster, d: Cluster, k: Agent, w: Sweeper, id: Id, pass: nat, next: At) {
    if next.Idle? then Plain(d) == Plain(Final(b, c, w, id, pass))
    else InPass(next, pass) && Plain(d) == Shape(Plain(c), k, next)
  }

  lemma PlainKeeps(c: Cluster)
    ensures var d := Plain(c);
            && d.registry == c.registry && d.owner == c.owner && d.lock == c.lock && d.next == c.next
            && d.held == c.held && d.record == c.record && d.dir == c.dir && d.dogged == c.dogged
  {
  }

  /** Taking a lock and giving it back. */
  lemma HeldAgain(c: Cluster, n: nat, k: Agent)
    requires n !in c.held
    ensures c.held[n := BySweeper(k)] - {n} == c.held
  {
  }

  /** One call of pass 1. */
  function Called1(s: State, d: Cluster, k: Agent, w: Sweeper): Cluster {
    if w.at.RemoveDir1? && w.at.record.owns then d.(dir := None) else Call1(s, d, k, w).0
  }

  lemma Call1Goes(b: State, s: State, c: Cluster, d: Cluster, k: Agent, w: Sweeper, id: Id)
    requires c.Ours(w) && c.record.Some? && w.at.First() && Knows1(c, w.at) && Plain(d) == Shape(Plain(c), k, w.at)
    ensures Went(b, c, Called1(s, d, k, w), k, w, id, 1, Call1(s, d, k, w).1)
  {
    PlainKeeps(c);
    PlainKeeps(d);
    if w.at.Release1? {
      HeldAgain(c, w.at.inode, k);
    }
  }

  lemma Call1Learns(s: State, c: Cluster, d: Cluster, k: Agent, w: Sweeper)
    requires w.at.First() && Knows1(c, w.at) && Plain(d) == Shape(Plain(c), k, w.at)
    ensures Knows1(c, Call1(s, d, k, w).1)
  {
    PlainKeeps(c);
    PlainKeeps(d);
  }

  lemma Look2Goes(b: State, s: State, c: Cluster, d: Cluster, k: Agent, w: Sweeper, id: Id)
    requires w.id == id && Knows2(b, c, w, id, w.at) && Plain(d) == Shape(Plain(c), k, w.at)
    requires c.dir.Some? && w.at.Second() && !w.at.Reclaiming2() && !w.at.Flock2? && !w.at.Release2?
    requires s.now == b.now && (w.at.CheckUse2? ==> s.Using(Library(id)) == b.Using(Library(id)))
    ensures Went(b, c, Call2(s, d, k, w).0, k, w, id, 2, Call2(s, d, k, w).1)
  {
    PlainKeeps(c);
    PlainKeeps(d);
  }

  lemma Lock2Goes(b: State, s: State, c: Cluster, d: Cluster, k: Agent, w: Sweeper, id: Id)
    requires Knows2(b, c, w, id, w.at) && Plain(d) == Shape(Plain(c), k, w.at)
    requires c.dir.Some? && (w.at.Flock2? || w.at.Release2?)
    ensures Went(b, c, Call2(s, d, k, w).0, k, w, id, 2, Call2(s, d, k, w).1)
  {
    PlainKeeps(c);
    PlainKeeps(d);
    if w.at.Release2? {
      HeldAgain(c, w.at.inode, k);
    }
  }

  lemma Reclaim2Goes(b: State, s: State, c: Cluster, d: Cluster, k: Agent, w: Sweeper, id: Id)
    requires Strands(b, c, w, id) && w.at.Reclaiming2() && Plain(d) == Shape(Plain(c), k, w.at)
    ensures Went(b, c, Call2(s, d, k, w).0, k, w, id, 2, Call2(s, d, k, w).1)
  {
    PlainKeeps(c);
    PlainKeeps(d);
  }

  lemma Call2Goes(b: State, s: State, c: Cluster, d: Cluster, k: Agent, w: Sweeper, id: Id)
    requires w.id == id && Knows2(b, c, w, id, w.at) && Plain(d) == Shape(Plain(c), k, w.at)
    requires c.dir.Some? && w.at.Second()
    requires s.now == b.now && (w.at.CheckUse2? ==> s.Using(Library(id)) == b.Using(Library(id)))
    ensures Went(b, c, Call2(s, d, k, w).0, k, w, id, 2, Call2(s, d, k, w).1)
  {
    if w.at.Reclaiming2() {
      Reclaim2Goes(b, s, c, d, k, w, id);
    } else if w.at.Flock2? || w.at.Release2? {
      Lock2Goes(b, s, c, d, k, w, id);
    } else {
      Look2Goes(b, s, c, d, k, w, id);
    }
  }

  lemma Call2Learns(b: State, s: State, c: Cluster, d: Cluster, k: Agent, w: Sweeper, id: Id)
    requires w.id == id && Knows2(b, c, w, id, w.at) && Plain(d) == Shape(Plain(c), k, w.at)
    requires c.dir.Some? && w.at.Second()
    requires s.now == b.now && (w.at.CheckUse2? ==> s.Using(Library(id)) == b.Using(Library(id)))
    ensures Knows2(b, c, w, id, Call2(s, d, k, w).1)
  {
    PlainKeeps(c);
    PlainKeeps(d);
  }

  lemma Call3Goes(b: State, s: State, c: Cluster, d: Cluster, k: Agent, w: Sweeper, id: Id)
    requires c.Ours(w) && c.lock.Some? && w.at.Third() && Knows3(c, w.at) && Plain(d) == Shape(Plain(c), k, w.at)
    ensures Went(b, c, Call3(d, k, w).0, k, w, id, 3, Call3(d, k, w).1)
  {
    PlainKeeps(c);
    PlainKeeps(d);
    if w.at.Release3? {
      HeldAgain(c, w.at.inode, k);
    }
  }

  lemma Call3Learns(c: Cluster, d: Cluster, k: Agent, w: Sweeper)
    requires c.Ours(w) && c.lock.Some? && w.at.Third() && Knows3(c, w.at) && Plain(d) == Shape(Plain(c), k, w.at)
    ensures Knows3(c, Call3(d, k, w).1)
  {
    PlainKeeps(c);
    PlainKeeps(d);
  }

  /** What one call makes of the cluster, and which call comes next. */
  function Called(s: State, d: Cluster, k: Agent, w: Sweeper, pass: nat): (Cluster, At) {
    if pass == 1 then (Called1(s, d, k, w), Call1(s, d, k, w).1)
    else if pass == 2 then Call2(s, d, k, w)
    else Call3(d, k, w)
  }

  lemma AdvancedHere(b: State, s: State, k: Agent, id: Id, pass: nat)
    requires Entry(b, k, id, pass) && Doing(b, s, k, id, pass) && 1 <= pass <= 3
    ensures var (d, next) := Called(s, s.clusters[id], k, s.sweepers[k], pass);
            Advanced(s, k) == s.Put(id, d).Go(k, next)
  {
    CallOfPass(s, s.clusters[id], k, s.sweepers[k], pass);
    if s.sweepers[k].at.RemoveDir1? {
      RemovedHere(b, s, k, id);
    }
  }

  lemma CallOfPass(s: State, d: Cluster, k: Agent, w: Sweeper, pass: nat)
    requires InPass(w.at, pass) && 1 <= pass <= 3
    ensures Call(s, d, k, w) ==
              if pass == 1 then Call1(s, d, k, w) else if pass == 2 then Call2(s, d, k, w) else Call3(d, k, w)
    ensures !w.at.RemoveDir1? ==> Called(s, d, k, w, pass) == Call(s, d, k, w)
  {
  }

  /** The directory a record owns is the entry's own. */
  lemma RemovedHere(b: State, s: State, k: Agent, id: Id)
    requires Entry(b, k, id, 1) && Doing(b, s, k, id, 1) && s.sweepers[k].at.RemoveDir1?
    ensures var w := s.sweepers[k];
            Advanced(s, k) == s.Put(id, Called1(s, s.clusters[id], k, w)).Go(k, RemoveRecord1(w.at.inode))
  {
    RemovedOwn(s, k, id);
  }

  lemma RemovedOwn(s: State, k: Agent, id: Id)
    requires k in s.sweepers && s.sweepers[k].id == id && id in s.clusters
    requires s.sweepers[k].at.RemoveDir1? && Fits(id, s.sweepers[k].at.record)
    ensures var w := s.sweepers[k];
            Advanced(s, k) == s.Put(id, Called1(s, s.clusters[id], k, w)).Go(k, RemoveRecord1(w.at.inode))
  {
  }

  /** Process `p` has been killed exactly if it should have been by the next call. */
  ghost predicate GoneBy(b: State, s: State, k: Agent, id: Id, pass: nat, next: At, p: Pid) {
    k in b.sweepers && id in b.clusters && p in b.procs
    && (p in s.procs <==>
          if next.Idle? then !Dies(b, b.clusters[id], b.sweepers[k], id, pass, p, b.procs[p])
          else !Gone(id, b.clusters[id].record, next, p, b.procs[p]))
  }

  lemma Gone1Next(b: State, s: State, k: Agent, id: Id, p: Pid)
    requires Entry(b, k, id, 1) && Doing(b, s, k, id, 1) && s.sweepers[k].at.Todo() == {} && p in b.procs
    ensures GoneBy(b, s, k, id, 1, Call1(s, s.clusters[id], k, s.sweepers[k]).1, p)
  {
    PlainKeeps(b.clusters[id]);
    PlainKeeps(s.clusters[id]);
  }

  lemma Gone2Next(b: State, s: State, k: Agent, id: Id, p: Pid)
    requires Entry(b, k, id, 2) && Doing(b, s, k, id, 2) && s.sweepers[k].at.Todo() == {} && p in b.procs
    requires s.sweepers[k].at.CheckUse2? ==> s.Using(Library(id)) == b.Using(Library(id))
    ensures GoneBy(b, s, k, id, 2, Call2(s, s.clusters[id], k, s.sweepers[k]).1, p)
  {
    PlainKeeps(b.clusters[id]);
    PlainKeeps(s.clusters[id]);
  }

  lemma AllGone1(b: State, s: State, k: Agent, id: Id)
    requires Entry(b, k, id, 1) && Doing(b, s, k, id, 1) && s.sweepers[k].at.Todo() == {}
    ensures forall p | p in b.procs :: GoneBy(b, s, k, id, 1, Call1(s, s.clusters[id], k, s.sweepers[k]).1, p)
  {
    forall p | p in b.procs ensures GoneBy(b, s, k, id, 1, Call1(s, s.clusters[id], k, s.sweepers[k]).1, p) {
      Gone1Next(b, s, k, id, p);
    }
  }

  lemma AllGone2(b: State, s: State, k: Agent, id: Id)
    requires Entry(b, k, id, 2) && Doing(b, s, k, id, 2) && s.sweepers[k].at.Todo() == {}
    ensures forall p | p in b.procs :: GoneBy(b, s, k, id, 2, Call2(s, s.clusters[id], k, s.sweepers[k]).1, p)
  {
    if s.sweepers[k].at.CheckUse2? {
      SameUsers(b, s, k, id);
    }
    forall p | p in b.procs ensures GoneBy(b, s, k, id, 2, Call2(s, s.clusters[id], k, s.sweepers[k]).1, p) {
      Gone2Next(b, s, k, id, p);
    }
  }

  lemma AllGone3(b: State, s: State, k: Agent, id: Id)
    requires Entry(b, k, id, 3) && Doing(b, s, k, id, 3)
    ensures forall p | p in b.procs :: GoneBy(b, s, k, id, 3, Call3(s.clusters[id], k, s.sweepers[k]).1, p)
  {
  }

  lemma SameUsers(b: State, s: State, k: Agent, id: Id)
    requires Doing(b, s, k, id, 2) && s.sweepers[k].at.CheckUse2?
    ensures s.Using(Library(id)) == b.Using(Library(id))
  {
    assert forall p | p in b.procs :: p in s.procs;
  }

  /** The next call leads on, or to the end. */
  ghost predicate OnOrDone(b: State, t: State, k: Agent, id: Id, pass: nat) {
    k in t.sweepers && if t.sweepers[k].at.Idle? then Done(b, t, k, id, pass) else Doing(b, t, k, id, pass)
  }

  lemma Onwards(b: State, s: State, k: Agent, id: Id, pass: nat, d: Cluster, next: At)
    requires Entry(b, k, id, pass) && Doing(b, s, k, id, pass)
    requires Went(b, b.clusters[id], d, k, b.sweepers[k], id, pass, next) && Knows(b, k, id, next)
    requires d.registry == s.clusters[id].registry
    requires forall p | p in b.procs :: GoneBy(b, s, k, id, pass, next, p)
    ensures OnOrDone(b, s.Put(id, d).Go(k, next), k, id, pass)
  {
    var t := s.Put(id, d).Go(k, next);
    forall p | p in b.procs
      ensures p in s.procs <==>
                if next.Idle? then !Dies(b, b.clusters[id], b.sweepers[k], id, pass, p, b.procs[p])
                else !Gone(id, b.clusters[id].record, next, p, b.procs[p])
    {
      assert GoneBy(b, s, k, id, pass, next, p);
    }
    assert Frame(b, t, k, id);
  }

  /** The next call keeps to the entry's course. */
  ghost predicate OnCourse(b: State, s: State, k: Agent, id: Id, pass: nat) {
    && k in b.sweepers && id in b.clusters && k in s.sweepers && id in s.clusters
    && var (d, next) := Called(s, s.clusters[id], k, s.sweepers[k], pass);
    && Went(b, b.clusters[id], d, k, b.sweepers[k], id, pass, next) && d.registry == s.clusters[id].registry
    && Knows(b, k, id, next)
  }

  lemma Goes1(b: State, s: State, k: Agent, id: Id)
    requires Entry(b, k, id, 1) && Doing(b, s, k, id, 1)
    ensures OnCourse(b, s, k, id, 1)
  {
    var c, d, w := b.clusters[id], s.clusters[id], s.sweepers[k];
    Call1Goes(b, s, c, d, k, w, id);
    Call1Learns(s, c, d, k, w);
    StaysInPass(s, d, k, w, 1);
  }

  lemma Goes2(b: State, s: State, k: Agent, id: Id)
    requires Entry(b, k, id, 2) && Doing(b, s, k, id, 2)
    ensures OnCourse(b, s, k, id, 2)
  {
    var c, d, w := b.clusters[id], s.clusters[id], s.sweepers[k];
    if w.at.CheckUse2? {
      SameUsers(b, s, k, id);
    }
    Call2Goes(b, s, c, d, k, w, id);
    Call2Learns(b, s, c, d, k, w, id);
    StaysInPass(s, d, k, w, 2);
  }

  lemma Goes3(b: State, s: State, k: Agent, id: Id)
    requires Entry(b, k, id, 3) && Doing(b, s, k, id, 3)
    ensures OnCourse(b, s, k, id, 3)
  {
    var c, d, w := b.clusters[id], s.clusters[id], s.sweepers[k];
    Call3Goes(b, s, c, d, k, w, id);
    Call3Learns(c, d, k, w);
    StaysInPass(s, d, k, w, 3);
  }

  lemma StaysInPass(s: State, d: Cluster, k: Agent, w: Sweeper, pass: nat)
    requires InPass(w.at, pass)
    ensures var (e, next) := Called(s, d, k, w, pass); e.registry == d.registry && (next.Idle? || InPass(next, pass))
  {
    if pass == 1 {
      Call1LeavesOwner(s, d, k, w);
    }
  }

  /** Wherever the sweeper is with a record, its next call leads on or ends as it should. */
  lemma Advance1(b: State, s: State, k: Agent, id: Id)
    requires Entry(b, k, id, 1) && Doing(b, s, k, id, 1) && s.sweepers[k].at.Todo() == {}
    ensures OnOrDone(b, Advanced(s, k), k, id, 1)
  {
    AdvancedHere(b, s, k, id, 1);
    Goes1(b, s, k, id);
    AllGone1(b, s, k, id);
    var (d, next) := Called(s, s.clusters[id], k, s.sweepers[k], 1);
    Onwards(b, s, k, id, 1, d, next);
  }

  /** Likewise with a directory, */
  lemma Advance2(b: State, s: State, k: Agent, id: Id)
    requires Entry(b, k, id, 2) && Doing(b, s, k, id, 2) && s.sweepers[k].at.Todo() == {}
    ensures OnOrDone(b, Advanced(s, k), k, id, 2)
  {
    AdvancedHere(b, s, k, id, 2);
    Goes2(b, s, k, id);
    AllGone2(b, s, k, id);
    var (d, next) := Called(s, s.clusters[id], k, s.sweepers[k], 2);
    Onwards(b, s, k, id, 2, d, next);
  }

  /** and with a lock. */
  lemma Advance3(b: State, s: State, k: Agent, id: Id)
    requires Entry(b, k, id, 3) && Doing(b, s, k, id, 3)
    ensures OnOrDone(b, Advanced(s, k), k, id, 3)
  {
    AdvancedHere(b, s, k, id, 3);
    Goes3(b, s, k, id);
    AllGone3(b, s, k, id);
    var (d, next) := Called(s, s.clusters[id], k, s.sweepers[k], 3);
    Onwards(b, s, k, id, 3, d, next);
  }

  /** Taking up an entry. */
  lemma TakeUp(s: State, k: Agent, registry: nat, self: Pid, id: Id, pass: nat)
    requires Ready(s, k, registry, self) && id in s.clusters && 1 <= pass <= 3
    ensures var first := if pass == 1 then OpenLock1 else if pass == 2 then StatRecord2 else StatRecord3;
            Doing(s, Take(s, k, id, first), k, id, pass)
  {
  }

  // -------- What the world looks like then --------

  function After(w: Sweep.World, pass: nat, ids: set<Id>): Sweep.World {
    if pass == 1 then w.AfterRecords(ids) else if pass == 2 then w.AfterDirs(ids) else w.AfterLocks(ids)
  }

  /** A record that the calls are done with is as `Sweep` says. */
  lemma Reclaim1(b: State, t: State, k: Agent, registry: nat, self: Pid, id: Id)
    requires Ready(b, k, registry, self) && Entry(b, k, id, 1) && Done(b, t, k, id, 1)
    ensures Seen(t, registry, self) == Seen(b, registry, self).AfterRecords({id})
  {
    Sweep.OneRecord(Seen(b, registry, self), id);
    if FreeLock(b.clusters[id]) {
      SeenReclaimed(b, t, k, registry, self, id);
    } else {
      NothingDone(b, t, k, registry, self, id, 1);
    }
  }

  lemma SeenReclaimed(b: State, t: State, k: Agent, registry: nat, self: Pid, id: Id)
    requires Ready(b, k, registry, self) && Entry(b, k, id, 1) && Done(b, t, k, id, 1) && FreeLock(b.clusters[id])
    ensures var w := Seen(b, registry, self);
            Seen(t, registry, self) == w.(records := w.records - {id}, locks := w.locks - {id},
                                          dirs := w.dirs - w.Removed(id), procs := w.procs - w.Doomed(id))
  {
    SeenReclaimedFiles(b, t, k, registry, self, id);
    SeenReclaimedProcs(b, t, k, registry, self, id);
    ReclaimsIt(b, k, registry, self, id);
  }

  /** The sweep does reclaim such a record. */
  lemma ReclaimsIt(b: State, k: Agent, registry: nat, self: Pid, id: Id)
    requires Ready(b, k, registry, self) && Entry(b, k, id, 1) && FreeLock(b.clusters[id])
    ensures var w := Seen(b, registry, self);
            w.Reclaims(id) && id in w.records && w.records[id] == Parsed(b.clusters[id].record.value)
  {
  }

  lemma SeenReclaimedFiles(b: State, t: State, k: Agent, registry: nat, self: Pid, id: Id)
    requires Ready(b, k, registry, self) && Entry(b, k, id, 1) && Done(b, t, k, id, 1) && FreeLock(b.clusters[id])
    ensures var w, v, r := Seen(b, registry, self), Seen(t, registry, self), b.clusters[id].record.value;
            && v.records == w.records - {id} && v.locks == w.locks - {id}
            && v.held == w.held && v.dirs == w.dirs - w.RemovedBy(r) && v.now == w.now
  {
    SeenFiles(b, t, k, registry, id, 1);
  }

  /** The sweeper is between entries again. */
  lemma ReadyAgain(b: State, t: State, k: Agent, registry: nat, self: Pid, id: Id, pass: nat)
    requires Ready(b, k, registry, self) && Done(b, t, k, id, pass)
    ensures Ready(t, k, registry, self)
  {
  }

  lemma NothingDone(b: State, t: State, k: Agent, registry: nat, self: Pid, id: Id, pass: nat)
    requires Ready(b, k, registry, self) && Done(b, t, k, id, pass)
    requires Final(b, b.clusters[id], b.sweepers[k], id, pass) == b.clusters[id]
    requires forall pid | pid in b.procs :: pid in t.procs
    ensures Seen(t, registry, self) == Seen(b, registry, self)
  {
    assert t.procs == b.procs;
    SeenOfMoved(b, t, registry, self);
  }

  /** What is seen of the files, from what has become of the one cluster. */
  lemma SeenFiles(b: State, t: State, k: Agent, registry: nat, id: Id, pass: nat)
    requires k in b.sweepers && b.sweepers[k].registry == registry && Done(b, t, k, id, pass)
    ensures var c, d := b.clusters[id], Final(b, b.clusters[id], b.sweepers[k], id, pass);
            && Recovery.Held(t) == Recovery.Held(b)
            && (d.record == c.record ==> RecordsOf(t, registry) == RecordsOf(b, registry))
            && (d.record.None? ==> RecordsOf(t, registry) == RecordsOf(b, registry) - {id})
            && (d.lock == c.lock ==> LocksOf(t, registry) == LocksOf(b, registry))
            && (d.lock.None? ==> LocksOf(t, registry) == LocksOf(b, registry) - {id})
            && (d.dir == c.dir ==> DirsOf(t) == DirsOf(b))
            && (d.dir.None? ==> DirsOf(t) == DirsOf(b) - {Library(id)})
  {
    PlainKeeps(t.clusters[id]);
    PlainKeeps(Final(b, b.clusters[id], b.sweepers[k], id, pass));
    SeenRecords(b, t, registry, id);
    SeenLocks(b, t, registry, id);
    SeenHeld(b, t, id);
    SeenDirs(b, t, id);
  }

  lemma SeenReclaimedProcs(b: State, t: State, k: Agent, registry: nat, self: Pid, id: Id)
    requires Ready(b, k, registry, self) && Entry(b, k, id, 1) && Done(b, t, k, id, 1) && FreeLock(b.clusters[id])
    ensures var w := Seen(b, registry, self);
            Seen(t, registry, self).procs == w.procs - w.DoomedBy(b.clusters[id].record.value)
  {
    var w, r := Seen(b, registry, self), b.clusters[id].record.value;
    forall pid | pid in b.procs ensures Dooms(r, pid, b.procs[pid]) <==> pid in w.DoomedBy(r) {
      if Recorded(r, pid, b.procs[pid]) {
        var v :| v in r.servers && v.pid == pid && pid > 0 && v.binary != "" && v.binary in b.procs[pid].process.binaries;
        assert w.IsServer(v, r.dataPath);
      }
    }
  }

  /** So is a directory, */
  lemma Reclaim2(b: State, t: State, k: Agent, registry: nat, self: Pid, id: Id)
    requires Ready(b, k, registry, self) && Entry(b, k, id, 2) && Done(b, t, k, id, 2)
    ensures Seen(t, registry, self) == Seen(b, registry, self).AfterDirs({id})
  {
    Sweep.OneDir(Seen(b, registry, self), id);
    StrandsIsStranded(b, k, registry, self, id);
    if Strands(b, b.clusters[id], b.sweepers[k], id) {
      SeenStranded(b, t, k, registry, self, id);
    } else {
      NothingDone(b, t, k, registry, self, id, 2);
    }
  }

  lemma SeenStranded(b: State, t: State, k: Agent, registry: nat, self: Pid, id: Id)
    requires Ready(b, k, registry, self) && Done(b, t, k, id, 2) && Strands(b, b.clusters[id], b.sweepers[k], id)
    ensures var w := Seen(b, registry, self);
            Seen(t, registry, self) == w.(locks := w.locks - {id}, dirs := w.dirs - {Library(id)},
                                          procs := w.procs - w.Using(Library(id)))
  {
    SeenFiles(b, t, k, registry, id, 2);
    SeenStrandedProcs(b, t, k, registry, self, id);
  }

  lemma StrandsIsStranded(s: State, k: Agent, registry: nat, self: Pid, id: Id)
    requires k in s.sweepers && s.sweepers[k].registry == registry && id in s.clusters
    ensures Strands(s, s.clusters[id], s.sweepers[k], id) <==> Seen(s, registry, self).Stranded(id)
  {
    var w := Seen(s, registry, self);
    UsedIsUsing(s, registry, self, id);
    assert s.clusters[id].dir.Some? <==> Library(id) in w.dirs;
    assert id in w.locks ==> (w.locks[id] in w.held <==> s.clusters[id].lock.value in s.clusters[id].held);
  }

  lemma UsedIsUsing(s: State, registry: nat, self: Pid, id: Id)
    ensures Seen(s, registry, self).Used(id) <==> s.Using(Library(id)) != {}
  {
    var w := Seen(s, registry, self);
    if w.Used(id) {
      var pid :| pid in w.procs && Library(id) in w.procs[pid].paths;
      assert pid in s.Using(Library(id));
    }
    if s.Using(Library(id)) != {} {
      var pid :| pid in s.Using(Library(id));
      assert pid in w.procs && Library(id) in w.procs[pid].paths;
    }
  }

  lemma SeenStrandedProcs(b: State, t: State, k: Agent, registry: nat, self: Pid, id: Id)
    requires Ready(b, k, registry, self) && Done(b, t, k, id, 2) && Strands(b, b.clusters[id], b.sweepers[k], id)
    ensures Seen(t, registry, self).procs == Seen(b, registry, self).procs - Seen(b, registry, self).Using(Library(id))
  {
  }

  /** and a lock. */
  lemma Reclaim3(b: State, t: State, k: Agent, registry: nat, self: Pid, id: Id)
    requires Ready(b, k, registry, self) && Entry(b, k, id, 3) && Done(b, t, k, id, 3)
    ensures Seen(t, registry, self) == Seen(b, registry, self).AfterLocks({id})
  {
    var w := Seen(b, registry, self);
    Sweep.OneLock(w, id);
    FreeIsStale(b, k, registry, self, id);
    if w.Stale(id) {
      SeenUnlinked(b, t, k, registry, self, id);
    } else {
      NothingDone(b, t, k, registry, self, id, 3);
    }
  }

  lemma FreeIsStale(b: State, k: Agent, registry: nat, self: Pid, id: Id)
    requires k in b.sweepers && b.sweepers[k].registry == registry && Entry(b, k, id, 3)
    ensures Seen(b, registry, self).Stale(id) <==> b.clusters[id].record.None? && FreeLock(b.clusters[id])
  {
  }

  lemma SeenUnlinked(b: State, t: State, k: Agent, registry: nat, self: Pid, id: Id)
    requires Ready(b, k, registry, self) && Done(b, t, k, id, 3) && b.clusters[id].record.None? && FreeLock(b.clusters[id])
    ensures var w := Seen(b, registry, self); Seen(t, registry, self) == w.(locks := w.locks - {id})
  {
    SeenFiles(b, t, k, registry, id, 3);
    assert t.procs == b.procs;
  }
}
