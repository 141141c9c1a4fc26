/** One cluster handle: starting it with bounded retries, and tearing it down
    (embedded_tikv.go:88-247, embedded_tikv.go:297-436, process.go:25-174, registry.go:94-198).

    `Host` is what the operating system knows of this program, and what becomes of the things asked
    of it. */
module Lifecycle {
  import opened Registry
  import Versions
  import Wrappers

  /** Where a start or a stop failed. `conflict` is what `isPortConflict` finds in the message. */
  datatype Stage =
    | AlreadyStarted | NotStarted | Count | Binaries
    | Claiming | Publishing | Preparing | Recording | Ports | Spawning | Readiness
    | Stopping | Removing

  datatype Outcome = Ok | Failed(stage: Stage, conflict: bool)

  /** What the outside makes of the things asked of it, in turn: nothing goes wrong, or something
      does, with or without a port conflict in the message. */
  type Outside = nat -> Wrappers.Option<bool>

  function Answer(outside: Outside, i: nat, stage: Stage): Outcome {
    match outside(i)
    case None => Ok
    case Some(conflict) => Failed(stage, conflict)
  }

  /** Nothing goes wrong. */
  ghost predicate Fine(outside: Outside, from: nat, to: nat)
    decreases 0 + to
  {
    to <= from || (Fine(outside, from, to - 1) && outside(to - 1).None?)
  }

  lemma {:induction false} FineOn(outside: Outside, from: nat, mid: nat, to: nat)
    requires from <= mid <= to
    ensures Fine(outside, from, to) <==> Fine(outside, from, mid) && Fine(outside, mid, to)
    decreases 0 + to
  {
    if mid < to {
      FineOn(outside, from, mid, to - 1);
    }
  }

  /** Everything goes well, or everything but the last thing, which decides the outcome. */
  ghost predicate Asked(outside: Outside, from: nat, to: nat, o: Outcome) {
    from <= to && if o.Ok? then Fine(outside, from, to)
                  else from < to && Fine(outside, from, to - 1) && outside(to - 1) == Wrappers.Some(o.conflict)
  }

  /** `running` are the servers that have not exited; `spawned` and `stopped` list what was
      started, and whose `stop` has returned, in order; `outcomes` are the results of the latter. */
  class Host {
    const outside: Outside
    /** How many things it has been asked for. */
    var asked: nat
    var running: set<Pid>
    var spawned: seq<Process>
    var stopped: seq<Process>
    var outcomes: seq<bool>
    var claimed: seq<Id>
    var lockFiles: set<Id>
    var locked: set<Id>
    var records: map<Id, Record>
    var dirs: set<DataPath>
    /** The records and lock files that cannot be removed; nobody notices. */
    const stuckRecords: set<Id>
    const stuckLocks: set<Id>

    constructor (outside: Outside, stuckRecords: set<Id>, stuckLocks: set<Id>)
      ensures Valid() && running == {} && spawned == [] && stopped == [] && outcomes == []
      ensures this.outside == outside && asked == 0
    {
      this.outside, asked := outside, 0;
      running, spawned, stopped, outcomes, claimed := {}, [], [], [], [];
      lockFiles, locked, records, dirs := {}, {}, map[], {};
      this.stuckRecords, this.stuckLocks := stuckRecords, stuckLocks;
    }

    /** Lock files and locks are of claimed ids, and every stop has its outcome. */
    ghost predicate Valid()
      reads this`lockFiles, this`locked, this`claimed, this`stopped, this`outcomes
    {
      && (forall id | id in lockFiles :: id in claimed)
      && (forall id | id in locked :: id in claimed)
      && |stopped| == |outcomes|
    }

    method Ask(stage: Stage) returns (o: Outcome)
      modifies this`asked
      ensures asked == old(asked) + 1 && o == Answer(outside, old(asked), stage)
    {
      o := Answer(outside, asked, stage);
      asked := asked + 1;
    }

    /** Servers may exit at any time. */
    method Elapse()
      modifies this`running
      ensures running <= old(running)
    {
      var gone: set<Pid> := *;
      running := running - gone;
    }
  }

  // -------- process.go --------

  /** What a server's watchdog would remove. */
  datatype Cleanup = Cleanup(dataPath: DataPath, record: Wrappers.Option<Id>)

  datatype Signal = Term | Kill

  /** What `stop` does: look whether the server has exited, or send it a signal, which may fail. */
  datatype Act = Look(exited: bool) | Send(signal: Signal, ok: bool)

  /** The escalation of `stop`: a server is signalled only when it was just seen running, first asked
      and then forced. A signal that cannot be sent ends it, unless the server has exited. It
      succeeds exactly if the server is seen to have exited, and gives up only on a signal that could
      not be sent or on a server that outlasts SIGKILL. */
  ghost predicate Escalation(acts: seq<Act>, ok: bool) {
    var last := |acts| - 1;
    && last >= 0 && acts[0].Look? && acts[last] == Look(ok)
    && (forall i | 0 <= i <= last && acts[i].Send? :: i > 0 && acts[i - 1] == Look(false))
    && (forall i | 0 <= i <= last && acts[i].Send? && acts[i].signal.Kill? :: exists j | 0 <= j < i :: acts[j] == Send(Term, true))
    && (forall i, j | 0 <= i < j <= last && acts[i].Send? && acts[j].Send? :: acts[i].signal.Term? && acts[j].signal.Kill?)
    && (forall i, j | 0 <= i < j <= last && acts[i] == Look(true) :: acts[j] == Look(true))
    && (!ok ==> last > 0 && acts[last - 1].Send? && (acts[last - 1].signal.Kill? || !acts[last - 1].ok))
  }

  /** What the parent does to a watchdog pipe: write a line, close its write end. */
  datatype PipeEvent = Line | Close

  lemma NotAsked()
    ensures Escalation([Look(false), Send(Term, false), Look(false)], false)
  {
  }

  lemma AskedAndGone(asked: bool)
    ensures Escalation([Look(false), Send(Term, asked)] + (if asked then [Look(true)] else [Look(true), Look(true)]), true)
  {
  }

  lemma Forced(forced: bool, exited: bool)
    ensures var acts := [Look(false), Send(Term, true), Look(false)]
                        + ([Send(Kill, forced)] + (if forced || !exited then [Look(exited)] else [Look(true), Look(true)]));
            Escalation(acts, exited)
  {
    var acts := [Look(false), Send(Term, true), Look(false)]
                + ([Send(Kill, forced)] + (if forced || !exited then [Look(exited)] else [Look(true), Look(true)]));
    assert acts[1] == Send(Term, true) && acts[3] == Send(Kill, forced);
  }

  class Process {
    const name: string
    const binary: string
    const pid: Pid
    const cleanup: Cleanup
    var logOpen: bool
    /** Whether `p.watchdog` is set; a host without a shell gives none. */
    var watchdog: bool
    /** What has been done to the pipe, in order. */
    var pipe: seq<PipeEvent>
    var acts: seq<Act>

    constructor (name: string, binary: string, pid: Pid, cleanup: Cleanup, watchdog: bool)
      ensures this.name == name && this.binary == binary && this.pid == pid && this.cleanup == cleanup
      ensures this.logOpen && this.watchdog == watchdog && this.pipe == [] && acts == []
    {
      acts := [];
      this.name, this.binary, this.pid, this.cleanup := name, binary, pid, cleanup;
      this.logOpen, this.watchdog, this.pipe := true, watchdog, [];
    }

    /** The line is written before the pipe is closed, so the watchdog reads it before end of
        file. */
    method StandDown()
      modifies this`watchdog, this`pipe
      ensures watchdog == false
      ensures pipe == if old(watchdog) then old(pipe) + [Line, Close] else old(pipe)
    {
      if !watchdog {
        return;
      }
      pipe := pipe + [Line];
      pipe := pipe + [Close];
      watchdog := false;
    }

    /** `exited` may lag behind the exit, never run ahead of it, and is never taken back. */
    method Exited(host: Host, known: bool) returns (yes: bool)
      requires known ==> pid !in host.running
      modifies this`acts, host`running
      ensures host.running <= old(host.running) && acts == old(acts) + [Look(yes)]
      ensures (known ==> yes) && (yes ==> pid !in host.running)
    {
      host.Elapse();
      var seen: bool := *;
      yes := known || (seen && pid !in host.running);
      acts := acts + [Look(yes)];
    }

    /** Signalling the group: the signal may do its work late. */
    method SignalGroup(signal: Signal, host: Host) returns (ok: bool)
      modifies this`acts, host`running
      ensures host.running <= old(host.running) && acts == old(acts) + [Send(signal, ok)]
    {
      ok := *;
      acts := acts + [Send(signal, ok)];
      host.Elapse();
    }

    /** The body of `stop`, up to what it defers. */
    method Terminate(host: Host) returns (o: Outcome)
      modifies this`acts, host`running
      ensures host.running <= old(host.running)
      ensures o.Ok? ==> pid !in host.running
      ensures o.Failed? ==> o.stage == Stopping
      ensures old(acts) <= acts && Escalation(acts[|old(acts)|..], o.Ok?)
    {
      ghost var n := |acts|;
      var exited := Exited(host, false);
      assert acts[n..] == [Look(exited)];
      if exited {
        return Ok;
      }
      var signalled := SignalGroup(Term, host);
      if !signalled {
        exited := Exited(host, false);
        if !exited {
          assert acts[n..] == [Look(false), Send(Term, false), Look(false)];
          NotAsked();
          return Failed(Stopping, false);
        }
      }
      exited := Exited(host, exited);
      if exited {
        assert acts[n..] == [Look(false), Send(Term, signalled)] + (if signalled then [Look(true)] else [Look(true), Look(true)]);
        AskedAndGone(signalled);
        return Ok;
      }
      ghost var before := acts;
      assert before[n..] == [Look(false), Send(Term, true), Look(false)];
      o := Force(host);
      assert acts[n..] == before[n..] + acts[|before|..];
    }

    /** The second half of it. */
    method Force(host: Host) returns (o: Outcome)
      modifies this`acts, host`running
      ensures host.running <= old(host.running)
      ensures o.Ok? ==> pid !in host.running
      ensures o.Failed? ==> o.stage == Stopping
      ensures old(acts) <= acts && Escalation([Look(false), Send(Term, true), Look(false)] + acts[|old(acts)|..], o.Ok?)
    {
      ghost var n := |acts|;
      var signalled := SignalGroup(Kill, host);
      var exited := false;
      if !signalled {
        exited := Exited(host, false);
        if !exited {
          Forced(false, false);
          assert acts[n..] == [Send(Kill, false)] + [Look(false)];
          return Failed(Stopping, false);
        }
      }
      exited := Exited(host, exited);
      Forced(signalled, exited);
      assert acts[n..] == [Send(Kill, signalled)] + (if signalled then [Look(exited)] else [Look(true), Look(true)]);
      o := if exited then Ok else Failed(Stopping, false);
    }

    /** `stop`: success means the server has exited. Whatever the outcome, the stand-down and the
        log come last. */
    method Stop(host: Host) returns (o: Outcome)
      modifies this, host`running, host`stopped, host`outcomes
      ensures host.running <= old(host.running) && host.stopped == old(host.stopped) + [this]
      ensures host.outcomes == old(host.outcomes) + [o.Ok?]
      ensures o.Ok? ==> pid !in host.running
      ensures o.Failed? ==> o.stage == Stopping
      ensures old(acts) <= acts && Escalation(acts[|old(acts)|..], o.Ok?)
      ensures !logOpen && !watchdog
      ensures pipe == if old(watchdog) then old(pipe) + [Line, Close] else old(pipe)
    {
      o := Terminate(host);
      StandDown();
      logOpen := false;
      host.stopped, host.outcomes := host.stopped + [this], host.outcomes + [o.Ok?];
    }
  }

  // -------- registry.go --------

  class ClusterRecord {
    const id: Id
    var dataPath: DataPath
    var owns: bool
    var servers: seq<ServerRecord>
    /** Whether the lock is held. */
    var held: bool

    function Value(): Record
      reads this
    {
      Record(dataPath, owns, servers)
    }

    constructor (id: Id)
      ensures this.id == id && dataPath == NoPath && !owns && servers == [] && held
    {
      this.id, dataPath, owns, servers, held := id, NoPath, false, [], true;
    }

    /** Temp-and-rename: the published record becomes this one, or nothing changes. */
    method Save(host: Host, stage: Stage) returns (o: Outcome)
      modifies host`records, host`asked
      ensures host.asked == old(host.asked) + 1 && o == Answer(host.outside, old(host.asked), stage)
      ensures host.records == if o.Ok? then old(host.records)[id := Value()] else old(host.records)
    {
      o := host.Ask(stage);
      if o.Ok? {
        host.records := host.records[id := Value()];
      }
    }

    method SetDataPath(path: DataPath, owned: bool, host: Host) returns (o: Outcome)
      modifies this`dataPath, this`owns, host`records, host`asked
      ensures dataPath == path && owns == owned
      ensures host.asked == old(host.asked) + 1 && o == Answer(host.outside, old(host.asked), Recording)
      ensures host.records == if o.Ok? then old(host.records)[id := Value()] else old(host.records)
    {
      dataPath, owns := path, owned;
      o := Save(host, Recording);
    }

    method AddServer(name: string, pid: Pid, binary: string, host: Host) returns (o: Outcome)
      modifies this`servers, host`records, host`asked
      ensures servers == old(servers) + [ServerRecord(name, pid, binary)]
      ensures host.asked == old(host.asked) + 1 && o == Answer(host.outside, old(host.asked), Recording)
      ensures host.records == if o.Ok? then old(host.records)[id := Value()] else old(host.records)
    {
      servers := servers + [ServerRecord(name, pid, binary)];
      o := Save(host, Recording);
    }

    method Release(host: Host)
      modifies this`held, host`locked
      ensures !held
      ensures host.locked == if old(held) then old(host.locked) - {id} else old(host.locked)
    {
      if !held {
        return;
      }
      host.locked := host.locked - {id};
      held := false;
    }

    /** `close`. */
    method Close(host: Host)
      modifies this`held, host`locked, host`records, host`lockFiles
      ensures !held
      ensures host.locked == if old(held) then old(host.locked) - {id} else old(host.locked)
      ensures host.records == old(host.records) - if id in host.stuckRecords then {} else {id}
      ensures host.lockFiles == old(host.lockFiles) - if id in host.stuckLocks then {} else {id}
    {
      Release(host);
      if id !in host.stuckRecords {
        host.records := host.records - {id};
      }
      if id !in host.stuckLocks {
        host.lockFiles := host.lockFiles - {id};
      }
    }

    method Abandon(host: Host)
      modifies this`held, host`locked
      ensures !held
      ensures host.locked == if old(held) then old(host.locked) - {id} else old(host.locked)
    {
      Release(host);
    }
  }

  /** An id that `os.CreateTemp` may make: one that is longer than all before. */
  function Unclaimed(claimed: seq<Id>): (id: Id)
    ensures id !in claimed && forall x | x in claimed :: |x| < |id|
  {
    if claimed == [] then "0" else claimed[0] + Unclaimed(claimed[1..])
  }

  /** `openRecord`: a new id, its lock and its record. If the lock cannot be taken, its file is
      removed again. If only the first save fails, the caller gets a record along with the error, and
      the lock is held. */
  method OpenRecord(host: Host) returns (record: ClusterRecord?, o: Outcome)
    requires host.Valid()
    modifies host`claimed, host`lockFiles, host`locked, host`records, host`asked
    ensures host.Valid()
    ensures Asked(host.outside, old(host.asked), host.asked, o)
    ensures host.asked <= old(host.asked) + 3 && (o.Ok? ==> host.asked == old(host.asked) + 3)
    ensures o.Failed? ==> o.stage == if host.asked < old(host.asked) + 3 then Claiming else Publishing
    ensures o.Ok? || o.stage == Publishing ==>
              && record != null && fresh(record) && record.held && record.servers == [] && record.dataPath == NoPath
              && host.claimed == old(host.claimed) + [record.id] && record.id !in old(host.claimed)
              && host.locked == old(host.locked) + {record.id} && host.lockFiles == old(host.lockFiles) + {record.id}
    ensures o.Ok? ==> host.records == old(host.records)[record.id := record.Value()]
    ensures o.Failed? ==>
              && host.records == old(host.records)
              && old(host.claimed) <= host.claimed && |host.claimed| <= |old(host.claimed)| + 1
    ensures o.Failed? && o.stage == Claiming ==> host.locked == old(host.locked) && host.lockFiles == old(host.lockFiles)
  {
    record := null;
    var id;
    id, o := ClaimLock(host);
    if o.Ok? {
      record := new ClusterRecord(id);
      o := record.Save(host, Publishing);
    }
  }

  /** Its first half: a new lock file, and the lock on it. */
  method ClaimLock(host: Host) returns (id: Id, o: Outcome)
    requires host.Valid()
    modifies host`claimed, host`lockFiles, host`locked, host`asked
    ensures host.Valid()
    ensures Asked(host.outside, old(host.asked), host.asked, o)
    ensures host.asked <= old(host.asked) + 2 && (o.Ok? ==> host.asked == old(host.asked) + 2)
    ensures o.Ok? ==>
              && id !in old(host.claimed) && host.claimed == old(host.claimed) + [id]
              && host.locked == old(host.locked) + {id} && host.lockFiles == old(host.lockFiles) + {id}
    ensures o.Failed? ==>
              && o.stage == Claiming && host.locked == old(host.locked) && host.lockFiles == old(host.lockFiles)
              && old(host.claimed) <= host.claimed && |host.claimed| <= |old(host.claimed)| + 1
  {
    id := *;
    o := host.Ask(Claiming);
    if o.Failed? {
      return;
    }
    if id in host.claimed {
      id := Unclaimed(host.claimed);
    }
    host.claimed, host.lockFiles := host.claimed + [id], host.lockFiles + {id};
    o := host.Ask(Claiming);
    if o.Failed? {
      host.lockFiles := host.lockFiles - {id};
    } else {
      host.locked := host.locked + {id};
    }
  }

  // -------- embedded_tikv.go --------

  /** What the record says of these servers. */
  function Entries(ps: seq<Process>): (es: seq<ServerRecord>)
    ensures |es| == |ps|
  {
    seq(|ps|, i requires 0 <= i < |ps| => ServerRecord(ps[i].name, ps[i].pid, ps[i].binary))
  }

  lemma EntriesAppend(ps: seq<Process>, p: Process)
    ensures Entries(ps + [p]) == Entries(ps) + [ServerRecord(p.name, p.pid, p.binary)]
  {
  }

  lemma {:induction false} FreePid(pids: set<Pid>) returns (pid: Pid)
    ensures forall p | p in pids :: p < pid
  {
    if pids == {} {
      pid := 0;
    } else {
      var one :| one in pids;
      var rest := FreePid(pids - {one});
      assert forall p | p in pids :: p == one || p in pids - {one};
      pid := if one < rest then rest else one + 1;
    }
  }

  /** `startProcess`: one new process under a pid nothing runs under, or none at all. */
  method StartProcess(host: Host, name: string, binary: string, cleanup: Cleanup, shell: bool)
      returns (p: Process?, o: Outcome)
    modifies host`running, host`spawned, host`asked
    ensures host.asked == old(host.asked) + 1 && o == Answer(host.outside, old(host.asked), Spawning)
    ensures o.Ok? <==> p != null
    ensures o.Failed? ==> host.spawned == old(host.spawned) && host.running == old(host.running)
    ensures o.Ok? ==>
              && fresh(p) && p.name == name && p.binary == binary && p.cleanup == cleanup
              && p.logOpen && p.watchdog == shell && p.pipe == []
              && host.spawned == old(host.spawned) + [p]
              && p.pid !in old(host.running) && host.running == old(host.running) + {p.pid}
  {
    p := null;
    o := host.Ask(Spawning);
    if o.Ok? {
      ghost var some := FreePid(host.running);
      assert some !in host.running;
      var pid: Pid :| pid !in host.running;
      p := new Process(name, binary, pid, cleanup, shell);
      host.running, host.spawned := host.running + {pid}, host.spawned + [p];
    }
  }

  // -------- What an attempt asks for --------

  /** What the `k`-th thing is that an attempt with `n` stores asks for. */
  function StageOf(k: nat, n: nat): Stage {
    if k < 2 then Claiming
    else if k == 2 then Publishing
    else if k < 5 then Preparing
    else if k == 5 then Recording
    else if k == 6 then Ports
    else if k < 9 then Spawning
    else if k == 9 then Recording
    else if k == 10 then Readiness
    else if k < 11 + 3 * n then (if (k - 11) % 3 < 2 then Spawning else Recording)
    else Readiness
  }

  /** Everything in turn up to the wait for the stores, or up to the first thing that goes wrong. */
  ghost predicate Attempted(outside: Outside, from: nat, to: nat, n: nat, o: Outcome) {
    && Asked(outside, from, to, o) && to <= from + 12 + 3 * n
    && (o.Ok? ==> to == from + 12 + 3 * n)
    && (o.Failed? ==> o.stage == StageOf(to - from - 1, n))
  }

  /** So the outside alone decides: an attempt succeeds exactly if nothing goes wrong. */
  lemma AttemptDecided(outside: Outside, from: nat, to: nat, n: nat, o: Outcome)
    requires Attempted(outside, from, to, n, o)
    ensures o.Ok? <==> Fine(outside, from, from + 12 + 3 * n)
  {
    if o.Failed? {
      FineOn(outside, from, to, from + 12 + 3 * n);
    }
  }

  lemma AskedOn(outside: Outside, from: nat, mid: nat, to: nat, o: Outcome)
    requires from <= mid && Fine(outside, from, mid) && Asked(outside, mid, to, o)
    ensures Asked(outside, from, to, o)
  {
    FineOn(outside, from, mid, if o.Ok? then to else to - 1);
  }

  lemma SameForAnyNumber(k: nat, n: nat)
    requires k < 11
    ensures StageOf(k, n) == StageOf(k, 0)
  {
  }

  lemma BeforeTheServers(outside: Outside, from: nat, to: nat, n: nat, o: Outcome)
    requires o.Failed? && Asked(outside, from, to, o) && to <= from + 7 && o.stage == StageOf(to - from - 1, 0)
    ensures Attempted(outside, from, to, n, o)
  {
  }

  lemma FromTheServersOn(outside: Outside, from: nat, to: nat, n: nat, o: Outcome)
    requires Fine(outside, from, from + 7) && Asked(outside, from + 7, to, o) && to <= from + 12 + 3 * n
    requires if o.Ok? then to == from + 12 + 3 * n else o.stage == StageOf(to - from - 1, n)
    ensures Attempted(outside, from, to, n, o)
    ensures o.Failed? ==> o.stage != Claiming && o.stage != Publishing
  {
    AskedOn(outside, from, from + 7, to, o);
  }

  /** The stage of a store's first, second and third thing. */
  lemma StoreStages(i: nat, j: nat, n: nat)
    requires i < n && j < 3
    ensures StageOf(11 + 3 * i + j, n) == if j < 2 then Spawning else Recording
  {
    assert (3 * i + j) % 3 == j;
  }

  const ATTEMPTS := 3

  /** At most three attempts, of which all but the last were lost to a port conflict, and the last
      only if there were three; `o` is how the last one ended. */
  ghost predicate Retried(attempts: seq<Outcome>, o: Outcome) {
    && |attempts| <= 3
    && (forall i | 0 <= i < |attempts| - 1 :: attempts[i].Failed? && attempts[i].conflict)
    && (attempts == [] ==> o.Failed?)
    && (attempts != [] ==> o == attempts[|attempts| - 1])
    && (o.Failed? && o.conflict && attempts != [] ==> |attempts| == 3)
  }

  /** The next attempt begins where the last one ended, or, if that asked for the removal of its
      directory, after that. */
  ghost predicate NextFrom(first: nat, spans: seq<(nat, nat)>, asked: nat) {
    if spans == [] then asked == first else spans[|spans| - 1].1 <= asked <= spans[|spans| - 1].1 + 1
  }

  /** The attempts, one after another from `first` on, came out as the outside decided. */
  ghost predicate Decided(outside: Outside, first: nat, n: nat, attempts: seq<Outcome>, spans: seq<(nat, nat)>) {
    && |spans| == |attempts|
    && (attempts != [] ==>
          var last := |attempts| - 1;
          && Decided(outside, first, n, attempts[..last], spans[..last])
          && NextFrom(first, spans[..last], spans[last].0)
          && Attempted(outside, spans[last].0, spans[last].1, n, attempts[last]))
  }

  lemma {:induction false} OneMoreDecided(outside: Outside, first: nat, n: nat, attempts: seq<Outcome>, spans: seq<(nat, nat)>,
                                          from: nat, to: nat, o: Outcome)
    requires Decided(outside, first, n, attempts, spans) && NextFrom(first, spans, from) && Attempted(outside, from, to, n, o)
    ensures Decided(outside, first, n, attempts + [o], spans + [(from, to)])
  {
    assert (attempts + [o])[..|attempts|] == attempts && (spans + [(from, to)])[..|spans|] == spans;
  }

  /** The attempts whose every thing goes well are those that succeed. */
  lemma {:induction false} EachDecided(outside: Outside, first: nat, n: nat, attempts: seq<Outcome>, spans: seq<(nat, nat)>, i: nat)
    requires Decided(outside, first, n, attempts, spans) && i < |attempts|
    ensures attempts[i].Ok? <==> Fine(outside, spans[i].0, spans[i].0 + 12 + 3 * n)
    ensures attempts[i].Failed? ==> attempts[i].stage != Count
  {
    var last := |attempts| - 1;
    if i == last {
      AttemptDecided(outside, spans[i].0, spans[i].1, n, attempts[i]);
    } else {
      EachDecided(outside, first, n, attempts[..last], spans[..last], i);
    }
  }

  /** In one of the attempts nothing goes wrong: none of the twelve things it asks for, nor of the
      three for each store. */
  ghost predicate SomeFine(outside: Outside, n: nat, spans: seq<(nat, nat)>) {
    exists i | 0 <= i < |spans| :: Fine(outside, spans[i].0, spans[i].0 + 12 + 3 * n)
  }

  /** So a start succeeds exactly if in one of its attempts nothing goes wrong. */
  lemma SomeAttemptFine(outside: Outside, first: nat, n: nat, attempts: seq<Outcome>, spans: seq<(nat, nat)>, o: Outcome)
    requires Decided(outside, first, n, attempts, spans) && Retried(attempts, o) && attempts != []
    ensures o.Ok? <==> SomeFine(outside, n, spans)
    ensures o.Failed? ==> o.stage != Count
  {
    var last := |attempts| - 1;
    forall i | 0 <= i < |attempts|
      ensures attempts[i].Ok? <==> Fine(outside, spans[i].0, spans[i].0 + 12 + 3 * n)
    {
      EachDecided(outside, first, n, attempts, spans, i);
    }
    EachDecided(outside, first, n, attempts, spans, last);
  }

  /** How many attempts failed to publish their first record. */
  function Leaks(attempts: seq<Outcome>): nat {
    if attempts == [] then 0
    else
      var last := attempts[|attempts| - 1];
      Leaks(attempts[..|attempts| - 1]) + if last.Failed? && last.stage == Publishing then 1 else 0
  }

  /** Locks and ids in account: one lock for each attempt that leaked its own, one for the attempt
      that succeeded, and at most one id for each attempt. */
  ghost predicate Balanced(attempts: seq<Outcome>, before: set<Id>, locked: set<Id>, claimedBefore: nat, claimed: nat) {
    && before <= locked && claimed <= claimedBefore + |attempts|
    && |locked| == |before| + Leaks(attempts) + if attempts != [] && attempts[|attempts| - 1].Ok? then 1 else 0
  }

  /** Every one was lost to a port conflict. */
  ghost predicate Conflicts(attempts: seq<Outcome>) {
    forall i | 0 <= i < |attempts| :: attempts[i].Failed? && attempts[i].conflict
  }

  lemma OneMoreAttempt(attempts: seq<Outcome>, o: Outcome, before: set<Id>, sofar: set<Id>, locked: set<Id>,
                       claimedBefore: nat, claimedSofar: nat, claimed: nat)
    requires Conflicts(attempts) && Balanced(attempts, before, sofar, claimedBefore, claimedSofar)
    requires sofar <= locked && |locked| == |sofar| + (if o.Ok? || o.stage == Publishing then 1 else 0) && claimed <= claimedSofar + 1
    ensures Balanced(attempts + [o], before, locked, claimedBefore, claimed)
    ensures o.Failed? && o.conflict ==> Conflicts(attempts + [o])
    ensures o.Ok? || !o.conflict || |attempts| == ATTEMPTS - 1 ==> |attempts| < ATTEMPTS ==> Retried(attempts + [o], o)
  {
    LeaksAppend(attempts, o);
  }

  lemma OneMoreOnBooks(attempts: seq<Outcome>, o: Outcome, before: set<Id>, sofar: set<Id>, kept: Wrappers.Option<Id>,
                       ids: seq<Id>, claimedBefore: nat, claimed: nat)
    requires Conflicts(attempts) && Balanced(attempts, before, sofar, claimedBefore, |ids|) && claimed <= |ids| + 1
    requires (forall id | id in sofar :: id in ids) && (kept.Some? ==> kept.value !in ids)
    requires kept.Some? <==> o.Ok? || o.stage == Publishing
    ensures Balanced(attempts + [o], before, sofar + Just(kept), claimedBefore, claimed)
    ensures o.Failed? && o.conflict ==> Conflicts(attempts + [o])
    ensures o.Ok? || !o.conflict || |attempts| == 2 ==> |attempts| < 3 ==> Retried(attempts + [o], o)
  {
    LocksGrown(ids, sofar, kept);
    OneMoreAttempt(attempts, o, before, sofar, sofar + Just(kept), claimedBefore, |ids|, claimed);
  }

  lemma LeaksAppend(attempts: seq<Outcome>, o: Outcome)
    ensures Leaks(attempts + [o]) == Leaks(attempts) + if o.Failed? && o.stage == Publishing then 1 else 0
  {
    assert (attempts + [o])[..|attempts|] == attempts;
  }

  class Cluster {
    const host: Host
    /** The configuration: how many stores, the caller's directory if any, whether there is a shell. */
    const tikvCount: int
    const configPath: DataPath
    const shell: bool
    var started: bool
    var dataPath: DataPath
    var ownsDataPath: bool
    var pd: Process?
    var tikvs: seq<Process>
    var record: ClusterRecord?

    /** How many stores the loop of `startOnce` starts. */
    function Stores(): nat { if tikvCount < 0 then 0 else tikvCount }

    function Processes(): seq<Process>
      reads this`pd, this`tikvs
    {
      (if pd == null then [] else [pd]) + tikvs
    }

    ghost function Servers(): set<Process>
      reads this`pd, this`tikvs
    {
      (if pd == null then {} else {pd}) + set p | p in tikvs
    }

    /** The directory is the caller's throughout, or named after the record. */
    ghost predicate PathOk()
      reads this`dataPath, this`ownsDataPath
    {
      && !configPath.Library?
      && (ownsDataPath && dataPath != NoPath ==> dataPath.Library?)
      && (dataPath.Library? ==> ownsDataPath)
    }

    /** No process and no record. */
    ghost predicate Bare()
      reads this`pd, this`tikvs, this`record, this`dataPath, this`ownsDataPath
    {
      pd == null && tikvs == [] && record == null && !dataPath.Library? && PathOk()
    }

    /** A record and the servers it lists, one by one and in order. */
    ghost predicate Accounted()
      reads this`pd, this`tikvs, this`record, this`dataPath, this`ownsDataPath, record
    {
      && PathOk() && (pd == null ==> tikvs == [])
      && (record == null ==> pd == null && !dataPath.Library?)
      && (record != null ==>
            && record.held && record.servers == Entries(Processes())
            && (dataPath.Library? ==> dataPath == Library(record.id)))
    }

    /** Every server's watchdog knows the record, and the directory only where it is the library's. */
    ghost predicate Guarded(p: Process)
      reads this`record, this`dataPath, this`ownsDataPath
    {
      record != null && p.cleanup == Cleanup(if ownsDataPath then dataPath else NoPath, Wrappers.Some(record.id))
    }

    constructor (host: Host, tikvCount: int, configPath: DataPath, shell: bool)
      requires !configPath.Library?
      ensures this.host == host && this.tikvCount == tikvCount && this.configPath == configPath && this.shell == shell
      ensures Bare() && !started
    {
      this.host, this.tikvCount, this.configPath, this.shell := host, tikvCount, configPath, shell;
      started, dataPath, ownsDataPath, pd, tikvs, record := false, NoPath, false, null, [], null;
    }

    method PrepareDataPath(id: Id) returns (o: Outcome)
      requires PathOk() && !dataPath.Library?
      modifies this`dataPath, this`ownsDataPath, host`dirs, host`asked
      ensures Asked(host.outside, old(host.asked), host.asked, o)
      ensures host.asked <= old(host.asked) + 2 && (o.Ok? ==> host.asked == old(host.asked) + 2)
      ensures PathOk() && (dataPath.Library? ==> dataPath == Library(id)) && dataPath != NoPath
      ensures dataPath == if old(dataPath) != NoPath then old(dataPath) else if configPath != NoPath then configPath else Library(id)
      ensures o.Failed? ==> o.stage == Preparing
      ensures host.dirs == if host.asked == old(host.asked) + 2 then old(host.dirs) + {dataPath} else old(host.dirs)
    {
      if dataPath == NoPath {
        if configPath != NoPath {
          dataPath, ownsDataPath := configPath, false;
        } else {
          dataPath, ownsDataPath := Library(id), true;
        }
      }
      o := host.Ask(Preparing);
      if o.Failed? {
        return;
      }
      host.dirs := host.dirs + {dataPath};
      o := host.Ask(Preparing);
    }

    function CleanupPaths(): Cleanup
      reads this
    {
      Cleanup(if ownsDataPath then dataPath else NoPath, if record == null then Wrappers.None else Wrappers.Some(record.id))
    }

    /** `startPD`: the process is in the handle before it is in the record. */
    method StartPD() returns (o: Outcome)
      requires Accounted() && record != null && pd == null
      modifies this`pd, record`servers, host`running, host`spawned, host`records, host`asked
      ensures Accounted() && tikvs == []
      ensures Asked(host.outside, old(host.asked), host.asked, o)
      ensures host.asked <= old(host.asked) + 3 && (o.Ok? ==> host.asked == old(host.asked) + 3)
      ensures o.Failed? ==> o.stage == if host.asked < old(host.asked) + 3 then Spawning else Recording
      ensures host.spawned == old(host.spawned) + Processes()
      ensures pd != null <==> host.asked == old(host.asked) + 3
      ensures host.records == if o.Ok? then old(host.records)[record.id := record.Value()] else old(host.records)
      ensures pd != null ==> pd.name == "pd-0" && pd.binary == "pd-server"
      ensures pd != null ==> fresh(pd) && Guarded(pd) && pd.watchdog == shell && pd.pipe == []
    {
      o := host.Ask(Spawning);
      if o.Failed? {
        return;
      }
      var p;
      p, o := StartProcess(host, "pd-0", "pd-server", CleanupPaths(), shell);
      if o.Failed? {
        return;
      }
      EntriesAppend([], p);
      pd := p;
      assert Fine(host.outside, old(host.asked), old(host.asked) + 2);
      o := record.AddServer(p.name, p.pid, p.binary, host);
    }

    /** `startTiKV`: a store that was started is in the handle before it is in the record. */
    method StartTiKV(name: string) returns (o: Outcome, ghost store: Process?)
      requires Accounted() && record != null && pd != null
      modifies this`tikvs, record`servers, host`running, host`spawned, host`records, host`asked
      ensures Accounted()
      ensures Asked(host.outside, old(host.asked), host.asked, o)
      ensures host.asked <= old(host.asked) + 3 && (o.Ok? ==> host.asked == old(host.asked) + 3)
      ensures o.Failed? ==> o.stage == if host.asked < old(host.asked) + 3 then Spawning else Recording
      ensures store != null <==> host.asked == old(host.asked) + 3
      ensures tikvs == if store == null then old(tikvs) else old(tikvs) + [store]
      ensures host.spawned == if store == null then old(host.spawned) else old(host.spawned) + [store]
      ensures host.records == if o.Ok? then old(host.records)[record.id := record.Value()] else old(host.records)
      ensures store != null ==>
                && fresh(store) && Guarded(store) && store.watchdog == shell && store.pipe == []
                && store.name == name && store.binary == "tikv-server"
    {
      store := null;
      o := host.Ask(Spawning);
      if o.Failed? {
        return;
      }
      var p;
      p, o := StartProcess(host, name, "tikv-server", CleanupPaths(), shell);
      if o.Failed? {
        return;
      }
      EntriesAppend(Processes(), p);
      store, tikvs := p, tikvs + [p];
      assert Processes() == old(Processes()) + [p];
      assert Fine(host.outside, old(host.asked), old(host.asked) + 2);
      o := record.AddServer(p.name, p.pid, p.binary, host);
    }

    /** An attempt leaves no record only if it could not open one; `mine` is the id whose lock it
        holds, that of its record or of the one it could not publish. */
    ghost predicate Begun(o: Outcome, mine: Wrappers.Option<Id>)
      reads this`record, host`records
    {
      && (record == null ==> o.Failed? && (o.stage == Claiming || o.stage == Publishing))
      && (o.Failed? && o.stage == Publishing ==> record == null)
      && (mine.Some? <==> record != null || (o.Failed? && o.stage == Publishing))
      && (record != null ==> mine == Wrappers.Some(record.id) && record.id in host.records)
    }

    /** `startOnce` up to the ports: the record, the directory, and the directory in the record. */
    method Prepare() returns (o: Outcome, ghost mine: Wrappers.Option<Id>)
      requires Bare() && host.Valid()
      modifies this`dataPath, this`ownsDataPath, this`record,
               host`claimed, host`lockFiles, host`locked, host`records, host`dirs, host`asked
      ensures Accounted() && host.Valid() && pd == null
      ensures Asked(host.outside, old(host.asked), host.asked, o)
      ensures host.asked <= old(host.asked) + 7 && (o.Ok? ==> host.asked == old(host.asked) + 7)
      ensures o.Failed? ==> o.stage == StageOf(host.asked - old(host.asked) - 1, 0)
      ensures Begun(o, mine) && (record != null ==> fresh(record))
      ensures Ledger(old(host.claimed), old(host.locked), old(host.records).Keys, host.claimed, host.locked, host.records.Keys, mine)
      ensures o.Ok? ==>
                && record != null && dataPath != NoPath && record.Value() == Record(dataPath, ownsDataPath, [])
                && record.id in host.records && host.records[record.id] == record.Value()
    {
      var r;
      r, o := OpenRecord(host);
      mine := if o.Ok? || o.stage == Publishing then Wrappers.Some(r.id) else Wrappers.None;
      if o.Failed? {
        return;
      }
      record := r;
      o := Settle();
      AskedOn(host.outside, old(host.asked), old(host.asked) + 3, host.asked, o);
    }

    /** From the record to the ports. */
    method Settle() returns (o: Outcome)
      requires record != null && record.held && record.servers == [] && pd == null && tikvs == []
      requires PathOk() && !dataPath.Library? && record.id in host.records
      modifies this`dataPath, this`ownsDataPath, record`dataPath, record`owns, host`records, host`dirs, host`asked
      ensures Asked(host.outside, old(host.asked), host.asked, o)
      ensures host.asked <= old(host.asked) + 4 && (o.Ok? ==> host.asked == old(host.asked) + 4)
      ensures o.Failed? ==> o.stage == StageOf(3 + host.asked - old(host.asked) - 1, 0)
      ensures Accounted() && host.records.Keys == old(host.records).Keys
      ensures o.Ok? ==>
                && dataPath != NoPath && record.Value() == Record(dataPath, ownsDataPath, [])
                && host.records[record.id] == record.Value()
    {
      o := PrepareDataPath(record.id);
      if o.Ok? {
        o := record.SetDataPath(dataPath, ownsDataPath, host);
        if o.Ok? {
          o := host.Ask(Ports);
        }
      }
    }

    /** The stores are named by their number. */
    ghost predicate Numbered()
      reads this`tikvs
    {
      forall i | 0 <= i < |tikvs| :: tikvs[i].name == "tikv-" + Versions.Written(i) && tikvs[i].binary == "tikv-server"
    }

    /** The loop of `startOnce` over the stores. */
    method StartStores(n: nat) returns (o: Outcome)
      requires Accounted() && record != null && pd != null && tikvs == []
      requires record.dataPath == dataPath && record.owns == ownsDataPath
      requires record.id in host.records && host.records[record.id] == record.Value()
      modifies this`tikvs, record`servers, host`running, host`spawned, host`records, host`asked
      ensures Accounted() && host.spawned == old(host.spawned) + tikvs && host.records.Keys == old(host.records).Keys
      ensures Asked(host.outside, old(host.asked), host.asked, o)
      ensures host.asked <= old(host.asked) + 3 * n && (o.Ok? ==> host.asked == old(host.asked) + 3 * n)
      ensures o.Failed? ==> o.stage == StageOf(11 + host.asked - old(host.asked) - 1, n)
      ensures forall p | p in tikvs :: fresh(p) && Guarded(p) && p.watchdog == shell && p.pipe == []
      ensures Numbered()
      ensures o.Ok? ==> |tikvs| == n && record.id in host.records && host.records[record.id] == record.Value()
    {
      o := Ok;
      for i := 0 to n
        invariant o.Ok? && |tikvs| == i && Numbered()
        invariant Accounted() && host.spawned == old(host.spawned) + tikvs
        invariant forall p | p in tikvs :: fresh(p) && Guarded(p) && p.watchdog == shell && p.pipe == []
        invariant record.id in host.records && host.records[record.id] == record.Value()
        invariant host.records.Keys == old(host.records).Keys
        invariant host.asked == old(host.asked) + 3 * i && Fine(host.outside, old(host.asked), host.asked)
      {
        ghost var store;
        o, store := StartStore(i, n, old(host.asked));
        if o.Failed? {
          return;
        }
      }
    }

    /** The `i`-th turn of it. */
    method StartStore(i: nat, ghost n: nat, ghost from: nat) returns (o: Outcome, ghost store: Process?)
      requires Accounted() && record != null && pd != null && i < n && |tikvs| == i && Numbered()
      requires host.asked == from + 3 * i && Fine(host.outside, from, host.asked)
      modifies this`tikvs, record`servers, host`running, host`spawned, host`records, host`asked
      ensures Accounted() && Numbered()
      ensures Asked(host.outside, from, host.asked, o)
      ensures host.asked <= from + 3 * i + 3 && (o.Ok? ==> host.asked == from + 3 * i + 3)
      ensures o.Failed? ==> o.stage == StageOf(11 + host.asked - from - 1, n)
      ensures o.Ok? ==> store != null
      ensures tikvs == if store == null then old(tikvs) else old(tikvs) + [store]
      ensures host.spawned == if store == null then old(host.spawned) else old(host.spawned) + [store]
      ensures host.records == if o.Ok? then old(host.records)[record.id := record.Value()] else old(host.records)
      ensures store != null ==> fresh(store) && Guarded(store) && store.watchdog == shell && store.pipe == []
    {
      o, store := StartTiKV("tikv-" + Versions.Written(i));
      AskedOn(host.outside, from, from + 3 * i, host.asked, o);
      if o.Failed? {
        StoreStages(i, host.asked - from - 3 * i - 1, n);
      }
    }

    /** PD, and the wait for it. */
    method StartPDAndWait() returns (o: Outcome)
      requires Accounted() && record != null && pd == null && record.id in host.records
      modifies this`pd, record`servers, host`running, host`spawned, host`records, host`asked
      ensures Asked(host.outside, old(host.asked), host.asked, o)
      ensures host.asked <= old(host.asked) + 4 && (o.Ok? ==> host.asked == old(host.asked) + 4)
      ensures o.Failed? ==> o.stage == StageOf(7 + host.asked - old(host.asked) - 1, 0)
      ensures pd != null ==> pd.name == "pd-0" && pd.binary == "pd-server"
      ensures host.records.Keys == old(host.records).Keys
      ensures Accounted() && tikvs == [] && host.spawned == old(host.spawned) + Processes()
      ensures o.Ok? ==> pd != null && record.id in host.records && host.records[record.id] == record.Value()
      ensures pd != null ==> fresh(pd) && Guarded(pd) && pd.watchdog == shell && pd.pipe == []
    {
      o := StartPD();
      if o.Ok? {
        host.Elapse();
        o := host.Ask(Readiness);
      }
    }

    /** The servers, PD first, each followed by a wait that may fail. */
    method StartServers(n: nat) returns (o: Outcome)
      requires Accounted() && record != null && pd == null
      requires record.Value() == Record(dataPath, ownsDataPath, []) && record.id in host.records
      modifies this`pd, this`tikvs, record`servers, host`running, host`spawned, host`records, host`asked
      ensures host.records.Keys == old(host.records).Keys
      ensures Accounted() && host.spawned == old(host.spawned) + Processes()
      ensures Asked(host.outside, old(host.asked), host.asked, o)
      ensures host.asked <= old(host.asked) + 5 + 3 * n && (o.Ok? ==> host.asked == old(host.asked) + 5 + 3 * n)
      ensures o.Failed? ==> o.stage == StageOf(7 + host.asked - old(host.asked) - 1, n)
      ensures pd != null ==> fresh(pd) && Guarded(pd) && pd.watchdog == shell && pd.pipe == []
      ensures forall p | p in tikvs :: fresh(p) && Guarded(p) && p.watchdog == shell && p.pipe == []
      ensures Numbered() && (pd != null ==> pd.name == "pd-0" && pd.binary == "pd-server")
      ensures o.Ok? ==>
                && pd != null && |tikvs| == n
                && record.id in host.records && host.records[record.id] == record.Value()
    {
      o := StartPDAndWait();
      if o.Ok? {
        ghost var first := pd;
        assert host.spawned == old(host.spawned) + [first];
        o := StartStoresAndWait(n);
        assert pd == first && host.spawned == old(host.spawned) + ([first] + tikvs);
        AskedOn(host.outside, old(host.asked), old(host.asked) + 4, host.asked, o);
      } else {
        SameForAnyNumber(7 + host.asked - old(host.asked) - 1, n);
      }
    }

    /** The stores, and the wait for them. */
    method StartStoresAndWait(n: nat) returns (o: Outcome)
      requires Accounted() && record != null && pd != null && tikvs == []
      requires record.dataPath == dataPath && record.owns == ownsDataPath
      requires record.id in host.records && host.records[record.id] == record.Value()
      modifies this`tikvs, record`servers, host`running, host`spawned, host`records, host`asked
      ensures Accounted() && host.spawned == old(host.spawned) + tikvs && host.records.Keys == old(host.records).Keys
      ensures Asked(host.outside, old(host.asked), host.asked, o)
      ensures host.asked <= old(host.asked) + 1 + 3 * n && (o.Ok? ==> host.asked == old(host.asked) + 1 + 3 * n)
      ensures o.Failed? ==> o.stage == StageOf(11 + host.asked - old(host.asked) - 1, n)
      ensures forall p | p in tikvs :: fresh(p) && Guarded(p) && p.watchdog == shell && p.pipe == []
      ensures Numbered()
      ensures o.Ok? ==> |tikvs| == n && record.id in host.records && host.records[record.id] == record.Value()
    {
      o := StartStores(n);
      if o.Ok? {
        host.Elapse();
        o := host.Ask(Readiness);
      }
    }

    /** `startOnce`. However it returns, every process it spawned is in the handle, and the record
        lists them in order; only a failure to publish the very first record loses that record,
        with its lock held. */
    method StartOnce() returns (o: Outcome, ghost mine: Wrappers.Option<Id>)
      requires Bare() && host.Valid()
      modifies this`dataPath, this`ownsDataPath, this`pd, this`tikvs, this`record,
               host`running, host`spawned, host`claimed, host`lockFiles, host`locked, host`records, host`dirs, host`asked
      ensures Accounted() && host.Valid()
      ensures Attempted(host.outside, old(host.asked), host.asked, Stores(), o)
      ensures Numbered() && (pd != null ==> pd.name == "pd-0" && pd.binary == "pd-server")
      ensures host.spawned == old(host.spawned) + Processes()
      ensures pd != null ==> fresh(pd) && Guarded(pd) && pd.watchdog == shell && pd.pipe == []
      ensures forall p | p in tikvs :: fresh(p) && Guarded(p) && p.watchdog == shell && p.pipe == []
      ensures Begun(o, mine) && (record != null ==> fresh(record))
      ensures Ledger(old(host.claimed), old(host.locked), old(host.records).Keys, host.claimed, host.locked, host.records.Keys, mine)
      ensures o.Ok? ==>
                && record != null && pd != null && |tikvs| == Stores()
                && record.Value() == Record(dataPath, ownsDataPath, Entries(Processes()))
                && record.id in host.records && host.records[record.id] == record.Value()
    {
      o, mine := Prepare();
      if o.Ok? {
        ghost var locked, claimed, files := host.locked, host.claimed, host.lockFiles;
        o := StartServers(Stores());
        assert host.locked == locked && host.claimed == claimed && host.lockFiles == files;
        FromTheServersOn(host.outside, old(host.asked), host.asked, Stores(), o);
      } else {
        BeforeTheServers(host.outside, old(host.asked), host.asked, Stores(), o);
      }
    }

    /** The stores stop in any order. */
    method StopStores() returns (o: Outcome, ghost order: seq<Process>)
      modifies (set p | p in tikvs), host`running, host`stopped, host`outcomes
      ensures host.running <= old(host.running)
      ensures Tallied(old(host.outcomes), host.outcomes, o)
      ensures o.Ok? ==> forall p | p in tikvs :: p.pid !in host.running
      ensures o.Failed? ==> o.stage == Stopping
      ensures host.stopped == old(host.stopped) + order
      ensures multiset(order) == multiset(tikvs) && |order| == |tikvs| && |host.outcomes| == |old(host.outcomes)| + |order|
      ensures forall p | p in tikvs :: Stopped(p)
    {
      o, order := Ok, [];
      var left := tikvs;
      while left != []
        invariant host.running <= old(host.running) && host.stopped == old(host.stopped) + order
        invariant |host.outcomes| == |old(host.outcomes)| + |order|
        invariant Tallied(old(host.outcomes), host.outcomes, o)
        invariant Halfway(order, left, tikvs)
        invariant forall p | p in order :: Stopped(p) && (o.Ok? ==> p.pid !in host.running)
        invariant o.Failed? ==> o.stage == Stopping
        decreases |left|
      {
        var k := Pick(|left|);
        var p := left[k];
        OneMoreStopped(order, left, tikvs, k);
        left := left[..k] + left[k + 1..];
        var one := p.Stop(host);
        TallyOne(old(host.outcomes), host.outcomes[..|host.outcomes| - 1], o, one);
        if one.Failed? && o.Ok? {
          o := one;
        }
        order := order + [p];
      }
    }

    /** All the stores before PD. */
    method StopServers() returns (o: Outcome)
      modifies Servers(), host`running, host`stopped, host`outcomes
      ensures host.running <= old(host.running)
      ensures Tallied(old(host.outcomes), host.outcomes, o)
      ensures o.Ok? ==> forall p | p in Servers() :: p.pid !in host.running
      ensures o.Failed? ==> o.stage == Stopping
      ensures StoppedInOrder(old(host.stopped), host.stopped, tikvs, pd)
      ensures |host.outcomes| - |old(host.outcomes)| == |host.stopped| - |old(host.stopped)|
      ensures forall p | p in Servers() :: Stopped(p)
    {
      ghost var order;
      o, order := StopStores();
      if pd != null {
        var last := pd.Stop(host);
        TallyOne(old(host.outcomes), host.outcomes[..|host.outcomes| - 1], o, last);
        if last.Failed? && o.Ok? {
          o := last;
        }
      }
      assert host.stopped[|old(host.stopped)|..|old(host.stopped)| + |order|] == order;
    }

    /** The library's directory goes, a caller's stays. */
    method RemoveData() returns (o: Outcome)
      requires PathOk()
      modifies this`dataPath, host`dirs, host`asked
      ensures PathOk() && !dataPath.Library?
      ensures host.asked == old(host.asked) + if old(dataPath).Library? then 1 else 0
      ensures o == if old(dataPath).Library? then Answer(host.outside, old(host.asked), Removing) else Ok
      ensures host.dirs == if old(dataPath).Library? && o.Ok? then old(host.dirs) - {old(dataPath)} else old(host.dirs)
    {
      o := Ok;
      if ownsDataPath && dataPath != NoPath {
        o := host.Ask(Removing);
        if o.Ok? {
          host.dirs := host.dirs - {dataPath};
        }
        dataPath := NoPath;
      }
    }

    /** The record goes, or stays for a later sweep to find; the lock is released either way. */
    method GiveUpRecord(keep: bool)
      requires record != null ==> record.held
      modifies this`record, record, host`locked, host`records, host`lockFiles
      ensures record == null
      ensures keep || old(record) == null ==> host.records == old(host.records) && host.lockFiles == old(host.lockFiles)
      ensures host.locked == old(host.locked) - (if old(record) == null then {} else {old(record).id})
      ensures !keep && old(record) != null ==>
                && host.records == old(host.records) - (if old(record).id in host.stuckRecords then {} else {old(record).id})
                && host.lockFiles == old(host.lockFiles) - (if old(record).id in host.stuckLocks then {} else {old(record).id})
    {
      if record != null {
        if keep {
          record.Abandon(host);
        } else {
          record.Close(host);
        }
      }
      record := null;
    }

    /** `teardown`, on whatever a start left behind. The record goes only if every server has
        exited and the library's directory is removed; otherwise it stays. The lock is released
        either way. */
    method Teardown() returns (o: Outcome)
      requires Accounted() && host.Valid()
      modifies this`dataPath, this`pd, this`tikvs, this`record, record, Servers(),
               host`running, host`stopped, host`outcomes, host`lockFiles, host`locked, host`records, host`dirs, host`asked
      ensures Bare() && host.Valid()
      ensures host.running <= old(host.running) && old(host.outcomes) <= host.outcomes
      ensures o.Failed? && o.stage == Stopping <==> exists i | |old(host.outcomes)| <= i < |host.outcomes| :: !host.outcomes[i]
      ensures host.asked == old(host.asked) + if old(dataPath.Library?) then 1 else 0
      ensures o.Ok? <==>
                && (forall i | |old(host.outcomes)| <= i < |host.outcomes| :: host.outcomes[i])
                && (old(dataPath.Library?) ==> host.outside(old(host.asked)).None?)
      ensures host.dirs == if old(dataPath.Library?) && host.outside(old(host.asked)).None? then old(host.dirs) - {old(dataPath)}
                           else old(host.dirs)
      ensures o.Ok? ==> forall p | p in old(Servers()) :: p.pid !in host.running
      ensures o.Failed? ==> host.records == old(host.records) && host.lockFiles == old(host.lockFiles)
      ensures old(record) == null ==> host.records == old(host.records) && host.locked == old(host.locked)
      ensures old(record) != null ==> host.locked == old(host.locked) - {old(record).id}
      ensures o.Ok? && old(record) != null ==>
                && host.records == old(host.records) - (if old(record).id in host.stuckRecords then {} else {old(record).id})
                && host.lockFiles == old(host.lockFiles) - (if old(record).id in host.stuckLocks then {} else {old(record).id})
      ensures StoppedInOrder(old(host.stopped), host.stopped, old(tikvs), old(pd))
      ensures forall p | p in old(Servers()) :: Stopped(p)
    {
      o := StopAndRemove();
      GiveUpRecord(o.Failed?);
    }

    /** Everything but the record. */
    method StopAndRemove() returns (o: Outcome)
      requires PathOk() && host.Valid()
      modifies this`dataPath, this`pd, this`tikvs, Servers(),
               host`running, host`stopped, host`outcomes, host`dirs, host`asked
      ensures PathOk() && !dataPath.Library? && pd == null && tikvs == [] && host.Valid()
      ensures host.running <= old(host.running) && old(host.outcomes) <= host.outcomes
      ensures o.Failed? && o.stage == Stopping <==> exists i | |old(host.outcomes)| <= i < |host.outcomes| :: !host.outcomes[i]
      ensures host.asked == old(host.asked) + if old(dataPath.Library?) then 1 else 0
      ensures o.Ok? <==>
                && (forall i | |old(host.outcomes)| <= i < |host.outcomes| :: host.outcomes[i])
                && (old(dataPath.Library?) ==> host.outside(old(host.asked)).None?)
      ensures host.dirs == if old(dataPath.Library?) && host.outside(old(host.asked)).None? then old(host.dirs) - {old(dataPath)}
                           else old(host.dirs)
      ensures o.Ok? ==> forall p | p in old(Servers()) :: p.pid !in host.running
      ensures StoppedInOrder(old(host.stopped), host.stopped, old(tikvs), old(pd))
      ensures forall p | p in old(Servers()) :: Stopped(p)
    {
      o := StopServers();
      tikvs, pd := [], null;
      var removed := RemoveData();
      if removed.Failed? && o.Ok? {
        o := removed;
      }
    }

    /** What a started cluster is: every server runs guarded, and the published record lists them
        in order and has its lock held. */
    ghost predicate Up()
      reads this`pd, this`tikvs, this`record, this`dataPath, this`ownsDataPath, record, host`records, host`locked, Servers()
    {
      && Accounted() && record != null && pd != null && |tikvs| == Stores()
      && record.Value() == Record(dataPath, ownsDataPath, Entries(Processes()))
      && record.id in host.records && host.records[record.id] == record.Value() && record.id in host.locked
      && Numbered() && pd.name == "pd-0" && pd.binary == "pd-server"
      && forall p | p in Servers() :: Guarded(p) && p.pipe == []
    }

    /** One turn of the loop in `start`: an attempt, torn down if it fails. The records and locks
        of earlier attempts stay as they are. */
    method Attempt() returns (o: Outcome, ghost to: nat, ghost kept: Wrappers.Option<Id>)
      requires Bare() && host.Valid()
      modifies this`dataPath, this`ownsDataPath, this`pd, this`tikvs, this`record, host
      ensures host.Valid() && if o.Ok? then Up() && fresh(record) else Bare()
      ensures Attempted(host.outside, old(host.asked), to, Stores(), o) && to <= host.asked <= to + 1
      ensures old(host.claimed) <= host.claimed && |host.claimed| <= |old(host.claimed)| + 1
      ensures host.locked == old(host.locked) + Just(kept) && (kept.Some? ==> kept.value !in old(host.claimed))
      ensures kept.Some? <==> o.Ok? || o.stage == Publishing
      ensures old(host.spawned) <= host.spawned
      ensures forall p | p in host.spawned[|old(host.spawned)|..] :: if o.Ok? then p in Servers() else Stopped(p)
      ensures SameFor(old(host.claimed), old(host.records).Keys, host.records.Keys)
      ensures old(host.stopped) <= host.stopped && old(host.outcomes) <= host.outcomes
      ensures KeptSince(|old(host.outcomes)|)
    {
      o, kept := StartOnce();
      to := host.asked;
      assert host.spawned[|old(host.spawned)|..] == Processes();
      assert forall p | p in Processes() :: p in Servers();
      if o.Failed? {
        if record != null {
          kept := Wrappers.None;
        }
        Undo();
      }
    }

    /** The id of the handle's record. */
    ghost function Mine(): set<Id>
      reads this`record
    {
      if record == null then {} else {record.id}
    }

    /** The teardown of a failed attempt. If a stop fails, the record that lists its server stays. */
    method Undo()
      requires Accounted() && host.Valid()
      requires record != null ==> record.id in host.claimed && record.id in host.records && record.id in host.locked
      requires forall p | p in Servers() :: Guarded(p)
      modifies this`dataPath, this`pd, this`tikvs, this`record, record, Servers(),
               host`running, host`stopped, host`outcomes, host`lockFiles, host`locked, host`records, host`dirs, host`asked
      ensures Bare() && host.Valid() && old(host.asked) <= host.asked <= old(host.asked) + 1
      ensures host.locked == old(host.locked) - old(Mine())
      ensures forall id | id !in old(Mine()) :: id in host.records <==> id in old(host.records)
      ensures old(host.stopped) <= host.stopped && old(host.outcomes) <= host.outcomes
      ensures forall p | p in old(Servers()) :: Stopped(p)
      ensures KeptSince(|old(host.outcomes)|)
    {
      ghost var stores, pd', r := tikvs, pd, record;
      assert pd != null ==> pd in Servers();
      assert forall p | p in tikvs :: p in Servers() && p.cleanup.record == Wrappers.Some(r.id);
      var cleared := Teardown();
      forall i | |old(host.outcomes)| <= i < |host.outcomes| && !host.outcomes[i]
        ensures Kept(host.stopped[i], host.claimed, host.records.Keys, host.locked)
      {
        StoppedAreServers(old(host.stopped), host.stopped, stores, pd', i);
      }
    }

    /** Of the stops since `from`, those that failed left a server whose record is kept. */
    ghost predicate KeptSince(from: nat)
      reads host
    {
      AllKept(from, host.stopped, host.outcomes, host.claimed, host.records.Keys, host.locked)
    }

    /** The loop of `start`. The ghost results are how each attempt ended, and what it asked for: from
        the first number to before the second. */
    method Retry() returns (o: Outcome, ghost attempts: seq<Outcome>, ghost spans: seq<(nat, nat)>)
      requires Bare() && host.Valid() && tikvCount >= 1
      modifies this`dataPath, this`ownsDataPath, this`pd, this`tikvs, this`record, host
      ensures host.Valid() && if o.Ok? then Up() && fresh(record) else Bare()
      ensures attempts != [] && Retried(attempts, o) && (o.Failed? ==> o.stage != Count)
      ensures Decided(host.outside, old(host.asked), Stores(), attempts, spans)
      ensures o.Ok? <==> SomeFine(host.outside, Stores(), spans)
      ensures Balanced(attempts, old(host.locked), host.locked, |old(host.claimed)|, |host.claimed|)
      ensures old(host.spawned) <= host.spawned
      ensures forall p | p in host.spawned[|old(host.spawned)|..] :: p in Servers() || Stopped(p)
      ensures KeptSince(|old(host.outcomes)|)
    {
      o, attempts, spans := Ok, [], [];
      for i := 0 to ATTEMPTS
        invariant Bare() && host.Valid()
        invariant |attempts| == i && Conflicts(attempts) && (i > 0 ==> o == attempts[i - 1])
        invariant Balanced(attempts, old(host.locked), host.locked, |old(host.claimed)|, |host.claimed|)
        invariant Decided(host.outside, old(host.asked), Stores(), attempts, spans) && NextFrom(old(host.asked), spans, host.asked)
        invariant old(host.spawned) <= host.spawned
        invariant forall p | p in host.spawned[|old(host.spawned)|..] :: Stopped(p)
        invariant old(host.outcomes) <= host.outcomes && KeptSince(|old(host.outcomes)|)
      {
        o, attempts, spans := Round(|old(host.outcomes)|, |old(host.spawned)|, old(host.locked), |old(host.claimed)|,
                                    old(host.asked), attempts, spans);
        if o.Ok? || !o.conflict {
          break;
        }
      }
      SomeAttemptFine(host.outside, old(host.asked), Stores(), attempts, spans, o);
    }

    /** One turn of it, with all attempts on the books. */
    method Round(ghost from: nat, ghost first: nat, ghost locked: set<Id>, ghost claimed: nat, ghost asked: nat,
                 ghost attempts: seq<Outcome>, ghost spans: seq<(nat, nat)>)
        returns (o: Outcome, ghost attempts': seq<Outcome>, ghost spans': seq<(nat, nat)>)
      requires Bare() && host.Valid() && from <= |host.outcomes| && KeptSince(from)
      requires first <= |host.spawned| && forall p | p in host.spawned[first..] :: Stopped(p)
      requires Conflicts(attempts) && Balanced(attempts, locked, host.locked, claimed, |host.claimed|) && |attempts| < 3
      requires Decided(host.outside, asked, Stores(), attempts, spans) && NextFrom(asked, spans, host.asked)
      modifies this`dataPath, this`ownsDataPath, this`pd, this`tikvs, this`record, host
      ensures host.Valid() && if o.Ok? then Up() && fresh(record) else Bare()
      ensures attempts' == attempts + [o] && Balanced(attempts', locked, host.locked, claimed, |host.claimed|)
      ensures Decided(host.outside, asked, Stores(), attempts', spans') && NextFrom(asked, spans', host.asked)
      ensures o.Failed? && o.conflict ==> Conflicts(attempts')
      ensures o.Ok? || !o.conflict || |attempts| == 2 ==> Retried(attempts', o)
      ensures old(host.spawned) <= host.spawned
      ensures forall p | p in host.spawned[first..] :: (o.Ok? && p in Servers()) || Stopped(p)
      ensures old(host.outcomes) <= host.outcomes && KeptSince(from)
    {
      ghost var to, kept;
      o, to, kept := OneMore(from, first);
      OneMoreOnBooks(attempts, o, locked, old(host.locked), kept, old(host.claimed), claimed, |host.claimed|);
      OneMoreDecided(host.outside, asked, Stores(), attempts, spans, old(host.asked), to, o);
      attempts', spans' := attempts + [o], spans + [(old(host.asked), to)];
    }

    /** One more attempt, that does not undo what earlier ones kept. */
    method OneMore(ghost from: nat, ghost first: nat)
        returns (o: Outcome, ghost to: nat, ghost kept: Wrappers.Option<Id>)
      requires Bare() && host.Valid() && from <= |host.outcomes| && KeptSince(from)
      requires first <= |host.spawned| && forall p | p in host.spawned[first..] :: Stopped(p)
      modifies this`dataPath, this`ownsDataPath, this`pd, this`tikvs, this`record, host
      ensures host.Valid() && if o.Ok? then Up() && fresh(record) else Bare()
      ensures Attempted(host.outside, old(host.asked), to, Stores(), o) && to <= host.asked <= to + 1
      ensures |host.claimed| <= |old(host.claimed)| + 1
      ensures host.locked == old(host.locked) + Just(kept) && (kept.Some? ==> kept.value !in old(host.claimed))
      ensures kept.Some? <==> o.Ok? || o.stage == Publishing
      ensures old(host.spawned) <= host.spawned
      ensures forall p | p in host.spawned[first..] :: (o.Ok? && p in Servers()) || Stopped(p)
      ensures old(host.outcomes) <= host.outcomes && KeptSince(from)
    {
      o, to, kept := Attempt();
      LocksGrown(old(host.claimed), old(host.locked), kept);
      StillKept(from, old(host.stopped), old(host.outcomes), old(host.claimed), old(host.records).Keys, old(host.locked),
                host.stopped, host.outcomes, host.claimed, host.records.Keys, host.locked);
      Since(first, old(host.spawned), host.spawned);
    }

    /** `start` past its checks: the binaries, and the loop. */
    method Launch() returns (o: Outcome, ghost attempts: seq<Outcome>, ghost spans: seq<(nat, nat)>)
      requires Bare() && host.Valid() && tikvCount >= 1
      modifies this`dataPath, this`ownsDataPath, this`pd, this`tikvs, this`record, host
      ensures host.Valid() && if o.Ok? then Up() && fresh(record) else Bare()
      ensures Retried(attempts, o) && (o.Failed? ==> o.stage != Count)
      ensures if host.outside(old(host.asked)).Some? then attempts == [] && o == Answer(host.outside, old(host.asked), Binaries)
              else attempts != [] && Decided(host.outside, old(host.asked) + 1, tikvCount, attempts, spans)
      ensures o.Ok? <==> host.outside(old(host.asked)).None? && SomeFine(host.outside, tikvCount, spans)
      ensures Balanced(attempts, old(host.locked), host.locked, |old(host.claimed)|, |host.claimed|)
      ensures old(host.spawned) <= host.spawned
      ensures forall p | p in host.spawned[|old(host.spawned)|..] :: p in Servers() || Stopped(p)
      ensures KeptSince(|old(host.outcomes)|)
    {
      attempts, spans := [], [];
      o := host.Ask(Binaries);
      if o.Ok? {
        o, attempts, spans := Retry();
      }
    }

    /** `Start`: at most three attempts, each but the last lost to a port conflict. Whenever it
        fails, the handle is left with no process and no record, and every process any attempt
        spawned has been through `stop`. It takes one lock if it succeeds, and leaks one for each
        attempt that could not publish its first record. A server whose `stop` failed belongs to an
        attempt whose published record is kept, with its lock released, for a sweep to find.

        It fails for the number of stores exactly if that is below one. Otherwise what the outside
        makes of the things asked decides: it succeeds exactly if the binaries are there and nothing
        goes wrong in one of the attempts, of which each asks for the same things in the same order
        up to the first that goes wrong. */
    method Start() returns (o: Outcome, ghost attempts: seq<Outcome>, ghost spans: seq<(nat, nat)>)
      requires if started then Accounted() else Bare()
      requires host.Valid()
      modifies this, host
      ensures host.Valid()
      ensures old(started) ==>
                && o == Failed(AlreadyStarted, false) && started && pd == old(pd) && tikvs == old(tikvs) && record == old(record)
                && host.spawned == old(host.spawned) && host.claimed == old(host.claimed) && host.records == old(host.records)
      ensures !old(started) && o.Failed? ==> !started && Bare()
      ensures o.Ok? ==> started && tikvCount >= 1 && Up() && fresh(record)
      ensures !old(started) ==>
                Retried(attempts, o) && Balanced(attempts, old(host.locked), host.locked, |old(host.claimed)|, |host.claimed|)
      ensures !old(started) ==> (o.Failed? && o.stage == Count <==> tikvCount < 1)
      ensures !old(started) && tikvCount >= 1 ==>
                if host.outside(old(host.asked)).Some? then attempts == [] && o == Answer(host.outside, old(host.asked), Binaries)
                else attempts != [] && Decided(host.outside, old(host.asked) + 1, tikvCount, attempts, spans)
      ensures !old(started) ==>
                (o.Ok? <==>
                   && tikvCount >= 1 && host.outside(old(host.asked)).None?
                   && SomeFine(host.outside, tikvCount, spans))
      ensures !old(started) ==>
                && old(host.spawned) <= host.spawned
                && (forall p | p in host.spawned[|old(host.spawned)|..] :: p in Servers() || Stopped(p))
                && KeptSince(|old(host.outcomes)|)
    {
      attempts, spans := [], [];
      if started {
        return Failed(AlreadyStarted, false), [], [];
      }
      if tikvCount < 1 {
        return Failed(Count, false), [], [];
      }
      o, attempts, spans := Launch();
      started := o.Ok?;
    }

    /** `Stop`. */
    method Stop() returns (o: Outcome)
      requires if started then Accounted() else Bare()
      requires host.Valid()
      modifies this, host, record, Servers()
      ensures host.Valid() && !started && Bare()
      ensures !old(started) ==> o == Failed(NotStarted, false) && host.records == old(host.records) && host.running == old(host.running)
      ensures old(started) && o.Ok? ==> forall p | p in old(Servers()) :: p.pid !in host.running
      ensures old(started) && o.Failed? ==> host.records == old(host.records)
      ensures old(started) ==>
                (o.Ok? <==>
                   && (forall i | |old(host.outcomes)| <= i < |host.outcomes| :: host.outcomes[i])
                   && (old(dataPath.Library?) ==> host.outside(old(host.asked)).None?))
      ensures old(started) ==> StoppedInOrder(old(host.stopped), host.stopped, old(tikvs), old(pd))
    {
      if !started {
        return Failed(NotStarted, false);
      }
      o := Teardown();
      started := false;
    }
  }

  /** What `stop` leaves behind, whatever its outcome. */
  predicate Stopped(p: Process)
    reads p
  {
    !p.watchdog && !p.logOpen
  }

  /** The result is a success exactly if every stop since was one. */
  ghost predicate Tallied(before: seq<bool>, after: seq<bool>, o: Outcome) {
    before <= after && (o.Ok? <==> forall i | |before| <= i < |after| :: after[i])
  }

  /** The first error wins. */
  lemma TallyOne(before: seq<bool>, sofar: seq<bool>, o: Outcome, one: Outcome)
    requires Tallied(before, sofar, o)
    ensures Tallied(before, sofar + [one.Ok?], if one.Failed? && o.Ok? then one else o)
  {
    var after := sofar + [one.Ok?];
    assert after[|sofar|] == one.Ok?;
    assert forall i | |before| <= i < |sofar| :: after[i] == sofar[i];
    if o.Failed? {
      var i :| |before| <= i < |sofar| && !sofar[i];
      assert !after[i];
    }
  }

  /** The stores first, in any order, then PD. */
  ghost predicate StoppedInOrder(before: seq<Process>, after: seq<Process>, tikvs: seq<Process>, pd: Process?) {
    var n := |before| + |tikvs|;
    && |after| == n + (if pd == null then 0 else 1) && before <= after
    && multiset(after[|before|..n]) == multiset(tikvs)
    && (pd != null ==> after[n] == pd)
  }

  /** The record of the attempt that spawned `p` is published and nobody holds its lock. */
  predicate Kept(p: Process, claimed: seq<Id>, records: set<Id>, locked: set<Id>) {
    p.cleanup.record.Some?
    && var id := p.cleanup.record.value;
    id in claimed && id in records && id !in locked
  }

  ghost predicate AllKept(from: nat, stopped: seq<Process>, outcomes: seq<bool>, claimed: seq<Id>, records: set<Id>, locked: set<Id>) {
    && |stopped| == |outcomes|
    && forall i | from <= i < |outcomes| && !outcomes[i] :: Kept(stopped[i], claimed, records, locked)
  }

  lemma StillKept(from: nat, stopped: seq<Process>, outcomes: seq<bool>, claimed: seq<Id>, records: set<Id>, locked: set<Id>,
                  stopped': seq<Process>, outcomes': seq<bool>, claimed': seq<Id>, records': set<Id>, locked': set<Id>)
    requires AllKept(from, stopped, outcomes, claimed, records, locked)
    requires AllKept(|outcomes|, stopped', outcomes', claimed', records', locked')
    requires stopped <= stopped' && outcomes <= outcomes' && claimed <= claimed'
    requires SameFor(claimed, records, records') && SameFor(claimed, locked, locked')
    ensures AllKept(from, stopped', outcomes', claimed', records', locked')
  {
    forall i | from <= i < |outcomes'| && !outcomes'[i] ensures Kept(stopped'[i], claimed', records', locked') {
      if i < |outcomes| {
        assert Kept(stopped[i], claimed, records, locked);
      }
    }
  }

  /** At most one more id is claimed; the lock of `mine`, if any, is taken, and it is new; and the
      records of earlier ids are there, or not, as they were. */
  ghost predicate Ledger(ids: seq<Id>, locked: set<Id>, records: set<Id>, ids': seq<Id>, locked': set<Id>, records': set<Id>,
                         mine: Wrappers.Option<Id>) {
    && ids <= ids' && |ids'| <= |ids| + 1 && SameFor(ids, records, records')
    && locked' == locked + Just(mine) && (mine.Some? ==> mine.value !in ids && mine.value in ids')
  }

  function Just(id: Wrappers.Option<Id>): set<Id> { if id.Some? then {id.value} else {} }

  lemma LocksGrown(ids: seq<Id>, before: set<Id>, kept: Wrappers.Option<Id>)
    requires (forall id | id in before :: id in ids) && (kept.Some? ==> kept.value !in ids)
    ensures var after := before + Just(kept);
            before <= after && |after| == |before| + (if kept.Some? then 1 else 0) && SameFor(ids, before, after)
  {
    if kept.None? {
      assert before + Just(kept) == before;
    }
  }

  lemma Since(first: nat, before: seq<Process>, after: seq<Process>)
    requires first <= |before| && before <= after
    ensures forall p | p in after[first..] :: p in before[first..] || p in after[|before|..]
  {
    assert after[first..] == before[first..] + after[|before|..];
  }

  /** These ids are in the set, or not, as they were. */
  ghost predicate SameFor(ids: seq<Id>, before: set<Id>, after: set<Id>) {
    forall id | id in ids :: id in after <==> id in before
  }

  lemma StoppedAreServers(before: seq<Process>, after: seq<Process>, tikvs: seq<Process>, pd: Process?, i: nat)
    requires StoppedInOrder(before, after, tikvs, pd) && |before| <= i < |after|
    ensures after[i] in tikvs || after[i] == pd
  {
    var n := |before| + |tikvs|;
    if i < n {
      assert after[i] == after[|before|..n][i - |before|];
      assert after[i] in multiset(after[|before|..n]);
    }
  }

  method Pick(n: nat) returns (k: nat)
    requires n > 0
    ensures k < n
  {
    k := *;
    if k >= n {
      k := 0;
    }
  }

  /** Some of the stores are stopped, in this order, and the others are left. */
  ghost predicate Halfway(order: seq<Process>, left: seq<Process>, tikvs: seq<Process>) {
    && multiset(order) + multiset(left) == multiset(tikvs) && |order| + |left| == |tikvs|
    && (forall p | p in tikvs :: p in left || p in order)
    && (forall p | p in left :: p in tikvs)
  }

  lemma OneMoreStopped(order: seq<Process>, left: seq<Process>, tikvs: seq<Process>, k: nat)
    requires Halfway(order, left, tikvs) && k < |left|
    ensures Halfway(order + [left[k]], left[..k] + left[k + 1..], tikvs)
  {
    assert left == left[..k] + [left[k]] + left[k + 1..];
  }
}
