/** Owners and sweepers sharing registries, one file-system call per step
    (registry.go:86-198, registry.go:238-392, lock.go:26-67, embedded_tikv.go:134-180).

    An owner is one attempt to start a cluster and is named by the id it claims; ids never recur.
    A sweeper runs the three passes of `CleanOrphans` on one registry, over and over, taking
    entries in any order. Any of them can die at any step, which drops its locks. */
module Protocol {
  import opened Registry
  import opened Wrappers

  type Agent = nat

  datatype Holder = ByOwner | BySweeper(k: Agent)

  /** `Locked` is live: the owner holds the lock on its inode. `Closing` and `ClosingLock` are
      `close` after the release, about to remove the record and then the lock. */
  datatype Phase = Claimed | Opened(inode: nat) | Locked(inode: nat) | Closing | ClosingLock | Gone

  /** `memory` is the record in the owner's memory, `pending` what it wrote to a temporary file,
      `saved` what it last published. `made` says its directory exists as far as it knows, and
      `servers` are the processes it started that have not exited by themselves. */
  datatype Owner = Owner(phase: Phase, memory: Record, pending: Option<Record>, saved: Option<Record>,
                         made: bool, tearing: bool, servers: set<Pid>)

  /** Everything that bears one id: its owner, and the files named after it. `lock` is the inode
      the lock path names, `held` the locks on inodes the path names or once named, and `dir` the
      time of the directory's last change.

      The last four fields remember what others did to it: a third pass unlinked its lock while
      that mattered, a watchdog removed something, a sweep of another registry found its directory
      old and later unused, and which servers of it were killed for a caller's directory. */
  datatype Cluster = Cluster(registry: nat, owner: Owner,
                             lock: Option<nat>, next: nat, held: map<nat, Holder>,
                             record: Option<Record>, dir: Option<nat>,
                             unlinked: bool, dogged: bool, exposed: bool, strayed: set<Pid>)
  {
    predicate Live() { owner.phase.Locked? }
    /** The lock is given up or was never taken, for good. */
    predicate Over() { owner.phase.Closing? || owner.phase.ClosingLock? || owner.phase.Gone? }
    predicate Published() { owner.saved.Some? }
    predicate Ours(w: Sweeper) { registry == w.registry }

    function To(phase: Phase): Cluster { this.(owner := owner.(phase := phase)) }

    /** The kernel's release of the owner's lock. */
    function Drop(): Cluster {
      if owner.phase.Locked? then this.(held := held - {owner.phase.inode}) else this
    }
  }

  /** A process and the cluster that started it. */
  datatype Proc = Proc(home: Id, process: Process)
  {
    predicate Names(path: DataPath) { path != NoPath && path in process.paths }
  }

  /** Where a sweeper is with the entry `id`. The name says which call comes next. */
  datatype At =
    | Idle
    // reclaimRecord
    | OpenLock1 | Flock1(inode: nat) | ReadRecord(inode: nat)
    | KillRecorded(inode: nat, record: Record, todo: set<Pid>)
    | Enumerate1(inode: nat, record: Record)
    | KillUsing1(inode: nat, record: Record, todo: set<Pid>)
    | RemoveDir1(inode: nat, record: Record)
    | RemoveRecord1(inode: nat) | RemoveLock1(inode: nat) | Release1(inode: nat)
    // sweepDataDirectories
    | StatRecord2 | StatLock2 | OpenLock2 | Flock2(inode: nat) | Release2(inode: nat)
    | CheckAge2 | CheckUse2 | Enumerate2 | KillUsing2(todo: set<Pid>) | RemoveDir2 | RemoveLock2
    // sweepStaleLocks
    | StatRecord3 | OpenLock3 | Flock3(inode: nat) | Release3(inode: nat) | Unlink3
  {
    /** The inodes locked here. */
    function Locks(): set<nat> {
      if InPass1() || Release2? || Release3? then {inode} else {}
    }

    /** The first pass once it has the lock, and the second once it has decided to reclaim. */
    predicate InPass1() {
      || ReadRecord? || KillRecorded? || Enumerate1? || KillUsing1? || RemoveDir1? || RemoveRecord1?
      || RemoveLock1? || Release1?
    }
    predicate First() { OpenLock1? || Flock1? || InPass1() }
    predicate Second() {
      || StatRecord2? || StatLock2? || OpenLock2? || Flock2? || Release2? || CheckAge2? || CheckUse2?
      || Reclaiming2()
    }
    predicate Third() { StatRecord3? || OpenLock3? || Flock3? || Release3? || Unlink3? }
    predicate Reclaiming2() { Enumerate2? || KillUsing2? || RemoveDir2? || RemoveLock2? }

    function Todo(): set<Pid> { if KillRecorded? || KillUsing1? || KillUsing2? then todo else {} }

    function DropTodo(pid: Pid): At {
      if KillRecorded? || KillUsing1? || KillUsing2? then this.(todo := todo - {pid}) else this
    }
  }

  datatype Sweeper = Sweeper(registry: nat, id: Id, at: At)
  {
    /** The path it is killing for. */
    function Target(): DataPath {
      if at.KillRecorded? || at.KillUsing1? then at.record.dataPath
      else if at.KillUsing2? then Library(id)
      else NoPath
    }

    /** Whether it kills process `p` when it comes to `pid`: for a recorded server the binary must
        match as well. */
    predicate Kills(pid: Pid, p: Proc) {
      && p.Names(Target())
      && (at.KillRecorded? ==>
            exists v | v in at.record.servers :: v.pid == pid && pid > 0 && v.binary != "" && v.binary in p.process.binaries)
    }
  }

  function RecordedPids(r: Record): (pids: set<Pid>) { set v | v in r.servers :: v.pid }

  datatype State = State(clusters: map<Id, Cluster>, procs: map<Pid, Proc>, sweepers: map<Agent, Sweeper>, now: nat)
  {
    function Using(path: DataPath): (pids: set<Pid>) { set pid | pid in procs && procs[pid].Names(path) }

    function Put(id: Id, c: Cluster): State { this.(clusters := clusters[id := c]) }

    function Go(k: Agent, at: At): State
      requires k in sweepers
    {
      this.(sweepers := sweepers[k := sweepers[k].(at := at)])
    }
  }

  const EMPTY := State(map[], map[], map[], 0)

  // -------- Owners --------

  datatype DogPart = DogDir | DogRecord | DogLock

  datatype OwnerStep =
    | Open | Flock | OpenFails
    | WriteTemp | Rename | SaveFails
    | MakeDir(path: DataPath) | WriteDir
    | Spawn(pid: Pid, process: Process, name: string, binary: string)
    | TearDown | RemoveDir | Release | UnlinkRecord | UnlinkLock | Abandon
    | Die
    | Dog(part: DogPart)

  const NEW_RECORD := Record(NoPath, false, [])

  /** The cluster once `CreateTemp` has made its lock file. */
  function Claimant(registry: nat): Cluster {
    Cluster(registry, Owner(Claimed, NEW_RECORD, None, None, false, false, {}),
            Some(0), 1, map[], None, None, false, false, false, {})
  }

  ghost predicate OwnerCan(s: State, id: Id, c: Cluster, step: OwnerStep) {
    var o := c.owner;
    match step
    case Open => o.phase.Claimed?
    case Flock => o.phase.Opened? && o.phase.inode !in c.held
    case OpenFails => o.phase.Claimed? || o.phase.Opened?
    case WriteTemp => c.Live() && o.pending.None?
    case Rename => c.Live() && o.pending.Some?
    case SaveFails => c.Live() && o.pending.Some?
    case MakeDir(path) =>
      && c.Live() && c.Published() && !o.tearing && o.memory == NEW_RECORD && o.pending.None?
      && (path == Library(id) || path.Caller?)
    case WriteDir => c.Live() && o.made && !o.tearing && o.memory.dataPath.Library?
    case Spawn(pid, process, _, _) =>
      && c.Live() && c.Published() && !o.tearing && o.made
      && o.memory.dataPath != NoPath && o.saved.value.dataPath == o.memory.dataPath
      && pid !in s.procs && o.memory.dataPath in process.paths
      // CommandLine.ServerMatchesExactly
      && (forall x | Library(x) in process.paths :: x == id)
    case TearDown => c.Live() && c.Published()
    case RemoveDir => c.Live() && o.tearing
    case Release => c.Live() && o.tearing && !o.made && forall pid | pid in s.procs :: s.procs[pid].home != id
    case UnlinkRecord => o.phase.Closing?
    case UnlinkLock => o.phase.ClosingLock?
    case Abandon => c.Live() && o.tearing
    case Die => !o.phase.Gone?
    case Dog(_) => o.phase.Gone?
  }

  function OwnerDoes(c: Cluster, step: OwnerStep, now: nat): Cluster {
    var o := c.owner;
    match step
    case Open =>
      if c.lock.Some? then c.To(Opened(c.lock.value))
      else c.(lock := Some(c.next), next := c.next + 1).To(Opened(c.next))
    case Flock => if o.phase.Opened? then c.(held := c.held[o.phase.inode := ByOwner]).To(Locked(o.phase.inode)) else c
    case OpenFails => c.(lock := None).To(Gone)
    case WriteTemp => c.(owner := o.(pending := Some(o.memory)))
    case Rename => c.(record := o.pending, owner := o.(saved := o.pending, pending := None))
    case SaveFails => c.(owner := o.(pending := None))
    case MakeDir(path) =>
      c.(dir := if path.Library? then Some(now) else c.dir,
         owner := o.(made := true, memory := Record(path, path.Library?, [])))
    case WriteDir => c.(dir := Some(now))
    case Spawn(pid, _, name, binary) =>
      c.(strayed := c.strayed - {pid},
         owner := o.(servers := o.servers + {pid},
                     memory := o.memory.(servers := o.memory.servers + [ServerRecord(name, pid, binary)])))
    case TearDown => c.(owner := o.(tearing := true))
    case RemoveDir => c.(dir := if o.memory.owns then None else c.dir, owner := o.(made := false))
    case Release => c.Drop().To(Closing)
    case UnlinkRecord => c.(record := None).To(ClosingLock)
    case UnlinkLock => c.(lock := None).To(Gone)
    case Abandon => c.Drop().To(Gone)
    case Die => c.Drop().To(Gone)
    case Dog(part) =>
      c.(dogged := true,
         dir := if part.DogDir? then None else c.dir,
         record := if part.DogRecord? then None else c.record,
         lock := if part.DogLock? then None else c.lock)
  }

  function Owned(s: State, id: Id, step: OwnerStep): State
    requires id in s.clusters
  {
    s.(clusters := s.clusters[id := OwnerDoes(s.clusters[id], step, s.now)],
       procs := if step.Spawn? then s.procs[step.pid := Proc(id, step.process)] else s.procs)
  }

  // -------- Sweepers --------

  /** A non-blocking flock: nothing happens to a lock somebody holds. */
  function TryFlock(c: Cluster, k: Agent, n: nat, taken: At): (Cluster, At) {
    if n in c.held then (c, Idle) else (c.(held := c.held[n := BySweeper(k)]), taken)
  }

  function Unlock(c: Cluster, n: nat, next: At): (Cluster, At) { (c.(held := c.held - {n}), next) }

  /** Unlinks the lock path, remembering whether its owner had opened it or its record exists. */
  function Unlink(c: Cluster): Cluster {
    c.(lock := None,
       unlinked := c.unlinked || c.owner.phase.Opened? || c.owner.phase.Locked? || c.record.Some?)
  }

  /** One call of `reclaimRecord`. Kills are steps of their own, so a sweeper with pids left to
      kill does not advance. */
  function Call1(s: State, c: Cluster, k: Agent, w: Sweeper): (Cluster, At) {
    match w.at
    case OpenLock1 => (c, if c.Ours(w) && c.lock.Some? then Flock1(c.lock.value) else Idle)
    case Flock1(n) => TryFlock(c, k, n, ReadRecord(n))
    case ReadRecord(n) =>
      if c.Ours(w) && c.record.Some? then (c, KillRecorded(n, c.record.value, RecordedPids(c.record.value)))
      else Unlock(c, n, Idle)
    case KillRecorded(n, r, _) => (c, Enumerate1(n, r))
    case Enumerate1(n, r) => (c, KillUsing1(n, r, if r.owns && r.dataPath.Library? then s.Using(r.dataPath) else {}))
    case KillUsing1(n, r, _) => (c, RemoveDir1(n, r))
    case RemoveDir1(n, r) => (c, RemoveRecord1(n))
    case RemoveRecord1(n) => (c.(record := None), RemoveLock1(n))
    case RemoveLock1(n) => (c.(lock := None), Release1(n))
    case Release1(n) => Unlock(c, n, Idle)
    case _ => (c, Idle)
  }

  /** One call of `sweepDataDirectories`. */
  function Call2(s: State, c: Cluster, k: Agent, w: Sweeper): (Cluster, At) {
    match w.at
    case StatRecord2 => (c, if c.Ours(w) && c.record.Some? then Idle else StatLock2)
    case StatLock2 => (c, if c.Ours(w) && c.lock.Some? then OpenLock2 else CheckAge2)
    case OpenLock2 => (c, if c.Ours(w) && c.lock.Some? then Flock2(c.lock.value) else Idle)
    case Flock2(n) => TryFlock(c, k, n, Release2(n))
    case Release2(n) => Unlock(c, n, Enumerate2)
    case CheckAge2 => (c, if c.dir.Some? && s.now - c.dir.value >= GRACE then CheckUse2 else Idle)
    case CheckUse2 =>
      if s.Using(Library(w.id)) != {} then (c, Idle)
      else (c.(exposed := c.exposed || c.Live()), Enumerate2)
    case Enumerate2 => (c, KillUsing2(s.Using(Library(w.id))))
    case KillUsing2(_) => (c, RemoveDir2)
    case RemoveDir2 => (c.(dir := None), RemoveLock2)
    case RemoveLock2 => (if c.Ours(w) then c.(lock := None) else c, Idle)
    case _ => (c, Idle)
  }

  /** One call of `sweepStaleLocks`. */
  function Call3(c: Cluster, k: Agent, w: Sweeper): (Cluster, At) {
    match w.at
    case StatRecord3 => (c, if c.Ours(w) && c.record.Some? then Idle else OpenLock3)
    case OpenLock3 => (c, if c.Ours(w) && c.lock.Some? then Flock3(c.lock.value) else Idle)
    case Flock3(n) => TryFlock(c, k, n, Release3(n))
    case Release3(n) => Unlock(c, n, Unlink3)
    case Unlink3 => (Unlink(c), Idle)
    case _ => (c, Idle)
  }

  function Call(s: State, c: Cluster, k: Agent, w: Sweeper): (Cluster, At) {
    if w.at.First() then Call1(s, c, k, w) else if w.at.Second() then Call2(s, c, k, w) else Call3(c, k, w)
  }

  /** The check of the command line and the kill, as one step. */
  function KillOne(s: State, k: Agent, pid: Pid): State
    requires k in s.sweepers
  {
    var w := s.sweepers[k];
    var t := s.Go(k, w.at.DropTodo(pid));
    if pid in s.procs && w.Kills(pid, s.procs[pid]) then
      var home := s.procs[pid].home;
      var u := t.(procs := s.procs - {pid});
      if home in s.clusters && w.Target().Caller? then u.Put(home, s.clusters[home].(strayed := s.clusters[home].strayed + {pid})) else u
    else t
  }

  // -------- Steps and runs --------

  datatype Step =
    | Claim(id: Id, registry: nat) | Own(id: Id, step: OwnerStep)
    | Exit(pid: Pid) | Touch(pid: Pid) | Tick(elapsed: nat)
    | Join(k: Agent, registry: nat)
    | List1(k: Agent, id: Id) | List2(k: Agent, id: Id) | List3(k: Agent, id: Id)
    | Advance(k: Agent) | Kill(k: Agent, pid: Pid) | SweeperDies(k: Agent)

  predicate AtRest(s: State, k: Agent, id: Id) { k in s.sweepers && s.sweepers[k].at.Idle? && id in s.clusters }

  ghost predicate Enabled(s: State, step: Step) {
    match step
    case Claim(id, _) => id !in s.clusters
    case Own(id, o) => id in s.clusters && OwnerCan(s, id, s.clusters[id], o)
    case Exit(pid) => pid in s.procs
    case Touch(pid) => pid in s.procs && s.procs[pid].home in s.clusters && s.procs[pid].Names(Library(s.procs[pid].home))
    case Tick(_) => true
    case Join(k, _) => k !in s.sweepers
    // Listings may be stale: a record, a directory or a lock that was there once may be taken up.
    case List1(k, id) => AtRest(s, k, id) && s.clusters[id].Ours(s.sweepers[k]) && s.clusters[id].Published()
    case List2(k, id) => AtRest(s, k, id) && s.clusters[id].Published()
    case List3(k, id) => AtRest(s, k, id) && s.clusters[id].Ours(s.sweepers[k])
    case Advance(k) => k in s.sweepers && !s.sweepers[k].at.Idle? && s.sweepers[k].id in s.clusters && s.sweepers[k].at.Todo() == {}
    case Kill(k, pid) => k in s.sweepers && pid in s.sweepers[k].at.Todo()
    case SweeperDies(k) => k in s.sweepers
  }

  /** A listed entry is taken up. */
  function Take(s: State, k: Agent, id: Id, at: At): State
    requires k in s.sweepers
  {
    s.(sweepers := s.sweepers[k := Sweeper(s.sweepers[k].registry, id, at)])
  }

  function Advanced(s: State, k: Agent): State
    requires k in s.sweepers && s.sweepers[k].id in s.clusters
  {
    var w := s.sweepers[k];
    var (c, at) := Call(s, s.clusters[w.id], k, w);
    var t := s.Put(w.id, c).Go(k, at);
    if w.at.RemoveDir1? then RemoveOwned(t, w.at.record) else t
  }

  /** Removes the directory a record names, whichever it is. */
  function RemoveOwned(s: State, r: Record): State {
    if r.owns && r.dataPath.Library? && r.dataPath.id in s.clusters
    then s.Put(r.dataPath.id, s.clusters[r.dataPath.id].(dir := None)) else s
  }

  function Touched(s: State, id: Id): State
    requires id in s.clusters
  {
    s.Put(id, s.clusters[id].(dir := Some(s.now)))
  }

  function Exited(s: State, pid: Pid): State
    requires pid in s.procs
  {
    var home, t := s.procs[pid].home, s.(procs := s.procs - {pid});
    if home !in s.clusters then t
    else
      var c := s.clusters[home];
      t.Put(home, c.(owner := c.owner.(servers := c.owner.servers - {pid})))
  }

  /** The kernel drops the locks of a dead sweeper. */
  function SweeperDied(s: State, k: Agent): State
    requires k in s.sweepers
  {
    var w, t := s.sweepers[k], s.(sweepers := s.sweepers - {k});
    if w.id !in s.clusters then t
    else
      var c := s.clusters[w.id];
      t.Put(w.id, c.(held := c.held - w.at.Locks()))
  }

  ghost function Apply(s: State, step: Step): State
    requires Enabled(s, step)
  {
    match step
    case Claim(id, registry) => s.Put(id, Claimant(registry))
    case Own(id, o) => Owned(s, id, o)
    case Exit(pid) => Exited(s, pid)
    case Touch(pid) => Touched(s, s.procs[pid].home)
    case Tick(elapsed) => s.(now := s.now + elapsed)
    case Join(k, registry) => s.(sweepers := s.sweepers[k := Sweeper(registry, "", Idle)])
    case List1(k, id) => Take(s, k, id, OpenLock1)
    case List2(k, id) => Take(s, k, id, StatRecord2)
    case List3(k, id) => Take(s, k, id, StatRecord3)
    case Advance(k) => Advanced(s, k)
    case Kill(k, pid) => KillOne(s, k, pid)
    case SweeperDies(k) => SweeperDied(s, k)
  }

  ghost predicate Legal(s: State, steps: seq<Step>)
    decreases |steps|
  {
    steps == [] || (Enabled(s, steps[0]) && Legal(Apply(s, steps[0]), steps[1..]))
  }

  ghost function Exec(s: State, steps: seq<Step>): State
    requires Legal(s, steps)
    decreases |steps|
  {
    if steps == [] then s else Exec(Apply(s, steps[0]), steps[1..])
  }
}
