/** N supervised servers that share one data directory and one registry record
    (watchdog.go:39-46, process.go:123-174, embedded_tikv.go:249-267).

    Every server runs with a watchdog that reads from a pipe whose write end the parent holds.
    A step is one action of the parent, of a server, of a watchdog, or of the kernel. */
module Watchdog {

  /** Where the watchdog script is: in its blocking read, or past it. From `KillServer` to
      `KillGroup` the named command is the next to run. */
  datatype Dog =
    | Reading | StoodDown
    | KillServer | RemoveData | RemoveRecord | RemoveLock | KillGroup
    | Finished

  /** Where the parent's `stop` of one server is. The stand-down is deferred, so it comes last. */
  datatype Stop = NotStopping | Checking | Waiting | Deferred | LineWritten | PipeClosed

  /** `lines` counts newlines buffered in the pipe; `slain` is a watchdog killed by a signal. */
  datatype Server = Server(running: bool, dog: Dog, slain: bool, stop: Stop, lines: nat, writerOpen: bool)
  {
    /** The watchdog has taken the end of the pipe for the death of the parent. */
    predicate Fired() { !dog.Reading? && !dog.StoodDown? }
    predicate PastKill() { Fired() && !dog.KillServer? }
    predicate PastData() { PastKill() && !dog.RemoveData? }
    predicate PastRecord() { PastData() && !dog.RemoveRecord? }
    predicate PastLock() { PastRecord() && !dog.RemoveLock? }
    predicate Done() { dog.Finished? }
    /** The parent has written the line that means "stand down". */
    predicate Told() { stop.LineWritten? || stop.PipeClosed? }
  }

  datatype Action =
    // the server
    | Exit | Write
    // the parent's stop
    | Begin | SeeExit | Terminate(dogDies: bool) | Kill | GiveUp | WriteLine | ClosePipe
    // anyone else signalling the group
    | Signal(serverDies: bool, dogDies: bool)
    // the watchdog; a removal raced by a server still writing may leave the directory behind
    | ReadLine | ReadEOF | Command(complete: bool)

  datatype Step = ParentDies | TearDown(abandon: bool) | At(i: nat, action: Action)

  /** `owned` says the data directory is the library's; only then is it removed. */
  datatype State = State(servers: seq<Server>, parentAlive: bool, owned: bool, tornDown: bool,
                         data: bool, record: bool, lock: bool)
  {
    ghost predicate SomeRunning() { exists i | 0 <= i < |servers| :: servers[i].running }

    ghost predicate AllDone() { forall i | 0 <= i < |servers| :: servers[i].Done() }
  }

  ghost predicate CanAct(s: State, v: Server, a: Action) {
    match a
    case Exit => v.running
    case Write => v.running
    case Begin => s.parentAlive && v.stop.NotStopping?
    case SeeExit => s.parentAlive && !v.running && (v.stop.Checking? || v.stop.Waiting?)
    case Terminate(_) => s.parentAlive && v.stop.Checking?
    case Kill => s.parentAlive && v.stop.Waiting?
    case GiveUp => s.parentAlive && (v.stop.Checking? || v.stop.Waiting?)
    case WriteLine => s.parentAlive && v.stop.Deferred?
    case ClosePipe => s.parentAlive && v.stop.LineWritten?
    case Signal(_, _) => true
    case ReadLine => !v.slain && v.dog.Reading? && v.lines > 0
    case ReadEOF => !v.slain && v.dog.Reading? && v.lines == 0 && !v.writerOpen
    case Command(complete) => !v.slain && v.Fired() && !v.Done() && (complete || s.SomeRunning())
  }

  function Act(v: Server, a: Action): Server {
    match a
    case Exit => v.(running := false)
    case Write => v
    case Begin => v.(stop := Checking)
    case SeeExit => v.(stop := Deferred)
    case Terminate(dogDies) => v.(stop := Waiting, slain := v.slain || dogDies)
    case Kill => v.(stop := Deferred, running := false, slain := true)
    case GiveUp => v.(stop := Deferred)
    case WriteLine => v.(stop := LineWritten, lines := v.lines + 1)
    case ClosePipe => v.(stop := PipeClosed, writerOpen := false)
    case Signal(serverDies, dogDies) => v.(running := v.running && !serverDies, slain := v.slain || dogDies)
    case ReadLine => v.(dog := StoodDown, lines := if v.lines > 0 then v.lines - 1 else 0)
    case ReadEOF => v.(dog := KillServer)
    case Command(_) =>
      match v.dog
      case KillServer => v.(dog := RemoveData, running := false)
      case RemoveData => v.(dog := RemoveRecord)
      case RemoveRecord => v.(dog := RemoveLock)
      case RemoveLock => v.(dog := KillGroup)
      case KillGroup => v.(dog := Finished, running := false)
      case _ => v
  }

  ghost predicate Enabled(s: State, step: Step) {
    match step
    case ParentDies => s.parentAlive
    case TearDown(_) => s.parentAlive && !s.tornDown && forall i | 0 <= i < |s.servers| :: s.servers[i].stop.PipeClosed?
    case At(i, a) => i < |s.servers| && CanAct(s, s.servers[i], a)
  }

  /** The kernel closes every write end of a dead parent. */
  function Orphaned(servers: seq<Server>): seq<Server> {
    seq(|servers|, i requires 0 <= i < |servers| => servers[i].(writerOpen := false))
  }

  function Apply(s: State, step: Step): State {
    match step
    case ParentDies => s.(parentAlive := false, servers := Orphaned(s.servers))
    case TearDown(abandon) =>
      s.(tornDown := true, data := s.data && !s.owned, record := s.record && abandon, lock := s.lock && abandon)
    case At(i, a) =>
      if i >= |s.servers| then s else
      var v := s.servers[i];
      s.(servers := s.servers[i := Act(v, a)],
         data := (s.data || a.Write?) && !(a.Command? && v.dog.RemoveData? && s.owned && a.complete),
         record := s.record && !(a.Command? && v.dog.RemoveRecord?),
         lock := s.lock && !(a.Command? && v.dog.RemoveLock?))
  }

  ghost predicate Init(s: State) {
    && s.parentAlive && !s.tornDown && s.data && s.record && s.lock
    && forall i | 0 <= i < |s.servers| :: s.servers[i] == Server(true, Reading, false, NotStopping, 0, true)
  }

  // -------- Runs --------

  function Exec(s: State, steps: seq<Step>): (s': State)
    ensures |s'.servers| == |s.servers| && s'.owned == s.owned
    decreases |steps|
  {
    if steps == [] then s else Exec(Apply(s, steps[0]), steps[1..])
  }

  /** Every step of the run is enabled where it is taken. */
  ghost predicate Legal(s: State, steps: seq<Step>)
    decreases |steps|
  {
    steps == [] || (Enabled(s, steps[0]) && Legal(Apply(s, steps[0]), steps[1..]))
  }

  lemma Prepend(s: State, step: Step, rest: seq<Step>)
    requires Enabled(s, step) && Legal(Apply(s, step), rest)
    ensures Legal(s, [step] + rest) && Exec(s, [step] + rest) == Exec(Apply(s, step), rest)
  {
    assert ([step] + rest)[1..] == rest;
  }

  // -------- What every step keeps --------

  ghost predicate ServerInv(s: State, v: Server) {
    // The line stays in the pipe, so end of file is never seen before it.
    && (v.Told() && v.dog.Reading? ==> v.lines > 0)
    && (v.lines > 0 ==> v.Told())
    && (!s.parentAlive ==> !v.writerOpen)
    && (!v.writerOpen && s.parentAlive ==> v.stop.PipeClosed?)
    && (v.Fired() ==> !s.parentAlive && !v.Told())
    && (v.PastKill() ==> !v.running)
  }

  ghost predicate SharedInv(s: State) {
    && (s.tornDown ==> forall i | 0 <= i < |s.servers| :: s.servers[i].stop.PipeClosed?)
    && (!s.record && !s.tornDown ==> exists i | 0 <= i < |s.servers| :: s.servers[i].PastRecord())
    && (!s.lock && !s.tornDown ==> exists i | 0 <= i < |s.servers| :: s.servers[i].PastLock())
    && (!s.data && !s.tornDown ==> s.owned && exists i | 0 <= i < |s.servers| :: s.servers[i].PastData())
    && (forall i | 0 <= i < |s.servers| && s.servers[i].PastRecord() :: !s.record)
    && (forall i | 0 <= i < |s.servers| && s.servers[i].PastLock() :: !s.lock)
    // The last removal of the directory follows every kill.
    && (s.data && s.owned && s.servers != [] ==> exists i | 0 <= i < |s.servers| :: !s.servers[i].PastData())
  }

  ghost predicate Inv(s: State) {
    (forall i | 0 <= i < |s.servers| :: ServerInv(s, s.servers[i])) && SharedInv(s)
  }

  lemma ActKeepsServer(s: State, v: Server, a: Action)
    requires ServerInv(s, v) && CanAct(s, v, a)
    ensures ServerInv(s, Act(v, a))
  {
  }

  lemma StepKeepsServers(s: State, step: Step)
    requires Inv(s) && Enabled(s, step)
    ensures var s' := Apply(s, step);
            |s'.servers| == |s.servers| && forall i | 0 <= i < |s'.servers| :: ServerInv(s', s'.servers[i])
  {
    var s' := Apply(s, step);
    if step.At? {
      ActKeepsServer(s, s.servers[step.i], step.action);
    }
    forall i | 0 <= i < |s'.servers| ensures ServerInv(s', s'.servers[i]) {
      assert ServerInv(s, s.servers[i]);
    }
  }

  /** A server moves forward through its script and its stop, never back. */
  lemma ActMonotone(s: State, v: Server, a: Action)
    requires CanAct(s, v, a)
    ensures v.PastData() ==> Act(v, a).PastData()
    ensures v.PastRecord() ==> Act(v, a).PastRecord()
    ensures v.PastLock() ==> Act(v, a).PastLock()
    ensures v.stop.PipeClosed? ==> Act(v, a).stop.PipeClosed?
  {
  }

  lemma StepKeepsShared(s: State, step: Step)
    requires Inv(s) && Enabled(s, step)
    ensures SharedInv(Apply(s, step))
  {
    var s' := Apply(s, step);
    if step.At? {
      var i, a := step.i, step.action;
      var v := s.servers[i];
      ActMonotone(s, v, a);
      assert s'.servers[i] == Act(v, a);
      assert forall j | 0 <= j < |s.servers| && j != i :: s'.servers[j] == s.servers[j];
      assert ServerInv(s, v);
      if s'.data && s'.owned {
        DirectoryIsWatched(s, i, a);
      }
    } else {
      assert forall j | 0 <= j < |s.servers| :: s'.servers[j].dog == s.servers[j].dog && s'.servers[j].stop == s.servers[j].stop;
    }
  }

  lemma DirectoryIsWatched(s: State, i: nat, a: Action)
    requires Inv(s) && Enabled(s, At(i, a)) && s.owned && Apply(s, At(i, a)).data
    ensures var s' := Apply(s, At(i, a)); exists j | 0 <= j < |s'.servers| :: !s'.servers[j].PastData()
  {
    var s' := Apply(s, At(i, a));
    var v := s.servers[i];
    assert ServerInv(s, v);
    if a.Command? && v.dog.RemoveData? {
      var j :| 0 <= j < |s.servers| && s.servers[j].running;
      assert ServerInv(s, s.servers[j]);
      assert s'.servers[j] == s.servers[j];
    } else if a.Write? {
      assert !s'.servers[i].PastData();
    } else {
      var j :| 0 <= j < |s.servers| && !s.servers[j].PastData();
      assert !s'.servers[j].PastData();
    }
  }

  lemma {:induction false} KeepsInv(s: State, steps: seq<Step>)
    requires Inv(s) && Legal(s, steps)
    ensures Inv(Exec(s, steps))
    decreases |steps|
  {
    if steps != [] {
      StepKeepsServers(s, steps[0]);
      StepKeepsShared(s, steps[0]);
      KeepsInv(Apply(s, steps[0]), steps[1..]);
    }
  }

  lemma RunKeepsInv(s0: State, steps: seq<Step>)
    requires Init(s0) && Legal(s0, steps)
    ensures Inv(Exec(s0, steps))
  {
    assert s0.servers != [] ==> !s0.servers[0].PastData();
    KeepsInv(s0, steps);
  }

  // -------- What follows --------

  /** A watchdog passes its end-of-file branch only if the parent died without standing it down. */
  lemma FiringMeansParentDeath(s0: State, steps: seq<Step>, i: nat)
    requires Init(s0) && Legal(s0, steps) && i < |s0.servers|
    ensures Exec(s0, steps).servers[i].Fired() ==>
              !Exec(s0, steps).parentAlive && !Exec(s0, steps).servers[i].Told()
  {
    RunKeepsInv(s0, steps);
    assert ServerInv(Exec(s0, steps), Exec(s0, steps).servers[i]);
  }

  /** While the parent lives and has not torn the cluster down itself, nothing that any stop,
      exit or signal does costs the siblings their directory, record or lock. The same holds
      after its death wherever every server had been stood down. */
  lemma SharedStateSurvivesStops(s0: State, steps: seq<Step>)
    requires Init(s0) && Legal(s0, steps)
    requires var s := Exec(s0, steps);
             !s.tornDown && (s.parentAlive || forall i | 0 <= i < |s.servers| :: s.servers[i].Told())
    ensures Exec(s0, steps).data && Exec(s0, steps).record && Exec(s0, steps).lock
  {
    RunKeepsInv(s0, steps);
    var s := Exec(s0, steps);
    assert forall i | 0 <= i < |s.servers| :: ServerInv(s, s.servers[i]);
  }

  /** Confluence: in whatever order they ran, once every watchdog has finished, every server is
      dead and the owned directory, the record and the lock are gone, even if servers that were
      still running re-created files in between. */
  lemma AllFinishedLeavesNothing(s0: State, steps: seq<Step>)
    requires Init(s0) && Legal(s0, steps) && s0.servers != [] && Exec(s0, steps).AllDone()
    ensures var s := Exec(s0, steps);
            && (forall i | 0 <= i < |s.servers| :: !s.servers[i].running)
            && !s.record && !s.lock && (s.owned ==> !s.data)
  {
    RunKeepsInv(s0, steps);
    var s := Exec(s0, steps);
    assert s.servers[0].Done();
    assert forall i | 0 <= i < |s.servers| :: ServerInv(s, s.servers[i]);
  }

  /** A watchdog the parent left behind can always go on to the end of its script. */
  function Next(v: Server): Action { if v.dog.Reading? then ReadEOF else Command(true) }

  function Left(v: Server): nat {
    match v.dog
    case Reading => 6
    case KillServer => 5
    case RemoveData => 4
    case RemoveRecord => 3
    case RemoveLock => 2
    case KillGroup => 1
    case _ => 0
  }

  function TotalLeft(servers: seq<Server>): nat {
    if servers == [] then 0 else Left(servers[0]) + TotalLeft(servers[1..])
  }

  lemma {:induction false} TotalLeftDrops(servers: seq<Server>, i: nat, v: Server)
    requires i < |servers| && Left(v) < Left(servers[i])
    ensures TotalLeft(servers[i := v]) < TotalLeft(servers)
  {
    if i == 0 {
      assert servers[0 := v][1..] == servers[1..];
    } else {
      TotalLeftDrops(servers[1..], i - 1, v);
      assert servers[i := v][1..] == servers[1..][i - 1 := v];
    }
  }

  ghost predicate Abandoned(s: State) {
    !s.parentAlive && forall i | 0 <= i < |s.servers| :: !s.servers[i].slain && !s.servers[i].Told() && !s.servers[i].dog.StoodDown?
  }

  /** After the death of a parent that stood nobody down, the run in which all watchdogs finish
      exists: nothing blocks any of them. */
  lemma {:induction false} CanFinish(s: State)
    requires Inv(s) && Abandoned(s)
    ensures exists steps :: Legal(s, steps) && Exec(s, steps).AllDone()
    decreases TotalLeft(s.servers)
  {
    if s.AllDone() {
      assert Legal(s, []) && Exec(s, []) == s;
    } else {
      var i :| 0 <= i < |s.servers| && !s.servers[i].Done();
      var v := s.servers[i];
      var step := At(i, Next(v));
      NextIsEnabled(s, i);
      StepKeepsServers(s, step);
      StepKeepsShared(s, step);
      TotalLeftDrops(s.servers, i, Act(v, Next(v)));
      CanFinish(Apply(s, step));
      var rest :| Legal(Apply(s, step), rest) && Exec(Apply(s, step), rest).AllDone();
      Prepend(s, step, rest);
    }
  }

  lemma NextIsEnabled(s: State, i: nat)
    requires Inv(s) && Abandoned(s) && i < |s.servers| && !s.servers[i].Done()
    ensures var step := At(i, Next(s.servers[i])); Enabled(s, step) && Abandoned(Apply(s, step))
    ensures Left(Act(s.servers[i], Next(s.servers[i]))) < Left(s.servers[i])
  {
    assert ServerInv(s, s.servers[i]);
  }

  /** A caller's own directory is never removed. */
  lemma CallerDirectorySurvives(s0: State, steps: seq<Step>)
    requires Init(s0) && Legal(s0, steps) && !s0.owned && !Exec(s0, steps).tornDown
    ensures Exec(s0, steps).data
  {
    RunKeepsInv(s0, steps);
  }

  // -------- The order of the script --------

  /** A watchdog that has come to the directory has killed its server. */
  lemma KillComesFirst(s0: State, steps: seq<Step>, i: nat)
    requires Init(s0) && Legal(s0, steps) && i < |s0.servers|
    ensures var v := Exec(s0, steps).servers[i];
            v.running ==> v.dog.Reading? || v.dog.StoodDown? || v.dog.KillServer?
  {
    RunKeepsInv(s0, steps);
    assert ServerInv(Exec(s0, steps), Exec(s0, steps).servers[i]);
  }

  /** The record goes after the directory: where it is gone while the library's directory is there,
      the directory is still in the hands of another server, whose watchdog has not come to remove
      it; so a single server never leaves a directory without a record. */
  lemma DirectoryGoesBeforeRecord(s0: State, steps: seq<Step>)
    requires Init(s0) && Legal(s0, steps) && s0.owned
    requires var s := Exec(s0, steps); !s.tornDown && !s.record && s.data
    ensures var s := Exec(s0, steps);
            && |s.servers| > 1
            && exists i :: 0 <= i < |s.servers| &&
                 var dog := s.servers[i].dog; dog.Reading? || dog.StoodDown? || dog.KillServer? || dog.RemoveData?
  {
    RunKeepsInv(s0, steps);
    var s := Exec(s0, steps);
    var j :| 0 <= j < |s.servers| && s.servers[j].PastRecord();
    var i :| 0 <= i < |s.servers| && !s.servers[i].PastData();
    assert i != j;
  }

  /** The lock goes after the record: at no point of any run does a record stand without it, which
      no sweep could reclaim. */
  lemma NoRecordWithoutLock(s0: State, steps: seq<Step>)
    requires Init(s0) && Legal(s0, steps)
    ensures Exec(s0, steps).record ==> Exec(s0, steps).lock
  {
    assert s0.servers != [] ==> !s0.servers[0].PastData();
    LockOutlivesRecord(s0, steps);
  }

  lemma {:induction false} LockOutlivesRecord(s: State, steps: seq<Step>)
    requires Inv(s) && Legal(s, steps) && (s.record ==> s.lock)
    ensures Exec(s, steps).record ==> Exec(s, steps).lock
    decreases |steps|
  {
    if steps != [] {
      StepKeepsServers(s, steps[0]);
      StepKeepsShared(s, steps[0]);
      LockOutlivesRecord(Apply(s, steps[0]), steps[1..]);
    }
  }

  /** A record removed by a watchdog means that watchdog's own server is dead. */
  lemma RecordGoneMeansOneServerDead(s0: State, steps: seq<Step>)
    requires Init(s0) && Legal(s0, steps) && !Exec(s0, steps).record && !Exec(s0, steps).tornDown
    ensures var s := Exec(s0, steps);
            exists i | 0 <= i < |s.servers| :: s.servers[i].PastRecord() && !s.servers[i].running
  {
    RunKeepsInv(s0, steps);
    var s := Exec(s0, steps);
    var i :| 0 <= i < |s.servers| && s.servers[i].PastRecord();
    assert ServerInv(s, s.servers[i]);
  }

  /** It does not mean that all are: with two servers the first watchdog to finish removes the
      record while the second server still runs. */
  lemma RecordGoneWhileSiblingRuns(s0: State)
    requires Init(s0) && |s0.servers| == 2
    ensures exists steps :: Legal(s0, steps) && !Exec(s0, steps).record && Exec(s0, steps).servers[1].running
  {
    var fire := At(0, Command(true));
    var s1 := Apply(s0, ParentDies);
    var s2 := Apply(s1, At(0, ReadEOF));
    var s3, s4 := Apply(s2, fire), Apply(Apply(s2, fire), fire);
    var s5 := Apply(s4, fire);
    assert s2.servers[0].dog == KillServer && s2.servers[1].running;
    assert !s5.record && s5.servers[1].running;
    Prepend(s4, fire, []);
    assert [fire] + [] == [fire];
    Prepend(s3, fire, [fire]);
    Prepend(s2, fire, [fire, fire]);
    Prepend(s1, At(0, ReadEOF), [fire, fire, fire]);
    Prepend(s0, ParentDies, [At(0, ReadEOF), fire, fire, fire]);
  }
}
