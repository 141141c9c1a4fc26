/** A sweeper of `Protocol` that nobody disturbs does, call by call, what `Sweep` says a sweep
    does (registry.go:219-392). */
module Refinement {
  import opened Registry
  import opened Wrappers
  import opened Protocol
  import opened Safety
  import opened Recovery
  import opened EntryCalls
  import Sweep

  // -------- Sweeps of one sweeper --------

  /** What a pass that starts now lists: the records of the registry, the library directories
      there are, or the locks of the registry. */
  function Listed(s: State, registry: nat, pass: nat): (ids: set<Id>) {
    if pass == 1 then set id | id in s.clusters && s.clusters[id].registry == registry && s.clusters[id].record.Some?
    else if pass == 2 then set id | id in s.clusters && s.clusters[id].dir.Some?
    else set id | id in s.clusters && s.clusters[id].registry == registry && s.clusters[id].lock.Some?
  }

  /** Sweeper `k` takes up an entry in this pass. */
  predicate Takes(step: Step, k: Agent, pass: nat) {
    (if pass == 1 then step.List1? else if pass == 2 then step.List2? else step.List3?) && step.k == k
  }

  /** It goes on with the entry it has taken up. */
  predicate GoesOn(step: Step, k: Agent) { (step.Advance? || step.Kill?) && step.k == k }

  /** These steps are the rest of a sweep that sweeper `k` runs alone, in pass `pass`, with the
      entries `left` still to be taken up. Each pass lists what is there when it starts and takes
      every entry up once, in any order. */
  ghost predicate SweepsOn(s: State, k: Agent, pass: nat, left: set<Id>, steps: seq<Step>)
    requires k in s.sweepers
    decreases |steps|, 3 - pass
  {
    if !s.sweepers[k].at.Idle? then
      steps != [] && GoesOn(steps[0], k) && Enabled(s, steps[0])
      && SweepsOn(Apply(s, steps[0]), k, pass, left, steps[1..])
    else if left != {} then
      steps != [] && Takes(steps[0], k, pass) && steps[0].id in left && Enabled(s, steps[0])
      && SweepsOn(Apply(s, steps[0]), k, pass, left - {steps[0].id}, steps[1..])
    else if pass < 3 then SweepsOn(s, k, pass + 1, Listed(s, s.sweepers[k].registry, pass + 1), steps)
    else steps == []
  }

  /** These steps are one sweep that sweeper `k` runs alone. */
  ghost predicate SoloSweep(s: State, k: Agent, steps: seq<Step>) {
    k in s.sweepers && SweepsOn(s, k, 1, Listed(s, s.sweepers[k].registry, 1), steps)
  }

  // -------- Reachable states --------

  /** Some run leads from nothing to `s`. */
  ghost predicate Reachable(s: State) { exists steps :: Legal(EMPTY, steps) && Exec(EMPTY, steps) == s }

  lemma ReachableIsSound(s: State)
    requires Reachable(s)
    ensures Inv(s)
  {
    var steps :| Legal(EMPTY, steps) && Exec(EMPTY, steps) == s;
    RunKeeps(EMPTY, steps);
  }

  lemma ReachesNext(s: State, step: Step)
    requires Reachable(s) && Enabled(s, step)
    ensures Reachable(Apply(s, step))
  {
    var steps :| Legal(EMPTY, steps) && Exec(EMPTY, steps) == s;
    OneStep(s, step);
    Concatenate(EMPTY, steps, [step]);
  }

  lemma OneStep(s: State, step: Step)
    requires Enabled(s, step)
    ensures Legal(s, [step]) && Exec(s, [step]) == Apply(s, step)
  {
    var steps := [step];
    assert steps[0] == step && steps[1..] == [];
    assert Legal(Apply(s, step), []) && Exec(Apply(s, step), []) == Apply(s, step);
  }

  lemma {:induction false} Concatenate(s: State, first: seq<Step>, more: seq<Step>)
    requires Legal(s, first) && Legal(Exec(s, first), more)
    ensures Legal(s, first + more) && Exec(s, first + more) == Exec(Exec(s, first), more)
    decreases |first|
  {
    if first == [] {
      assert [] + more == more;
    } else {
      Concatenate(Apply(s, first[0]), first[1..], more);
      assert (first + more)[1..] == first[1..] + more;
    }
  }

  // -------- The whole sweep --------

  /** What the pass lists of a world. */
  function Entries(w: Sweep.World, pass: nat): set<Id> {
    if pass == 1 then w.records.Keys else if pass == 2 then w.DirIds() else w.locks.Keys
  }

  lemma ListedIsSeen(s: State, registry: nat, self: Pid, pass: nat)
    requires 1 <= pass <= 3
    ensures Listed(s, registry, pass) == Entries(Seen(s, registry, self), pass)
  {
    var w := Seen(s, registry, self);
    if pass == 1 {
      assert Listed(s, registry, 1) == RecordsOf(s, registry).Keys;
    } else if pass == 2 {
      forall id ensures id in Listed(s, registry, 2) <==> id in w.DirIds() {
        assert id in Listed(s, registry, 2) <==> Library(id) in LibraryDirs(s);
      }
    } else {
      assert Listed(s, registry, 3) == LocksOf(s, registry).Keys;
    }
  }

  /** Between entries of a pass that started with the world `w`. */
  ghost predicate Between(s: State, k: Agent, registry: nat, self: Pid, pass: nat, w: Sweep.World, left: set<Id>) {
    && Reachable(s) && Ready(s, k, registry, self) && 1 <= pass <= 3
    && (pass == 2 ==> w.OneDirEach())
    && left <= Entries(w, pass) && Seen(s, registry, self) == After(w, pass, Entries(w, pass) - left)
  }

  /** The entry `id` is taken up in `b`, */
  ghost predicate Started(b: State, k: Agent, registry: nat, self: Pid, pass: nat, w: Sweep.World, left: set<Id>, id: Id) {
    Between(b, k, registry, self, pass, w, left + {id}) && id !in left && Entry(b, k, id, pass)
  }

  /** and the sweeper is in the middle of it. */
  ghost predicate Within(b: State, s: State, k: Agent, id: Id, pass: nat) { Reachable(s) && Doing(b, s, k, id, pass) }

  /** What an entry is when it is taken up, and that it can be. */
  lemma IsEntry(s: State, k: Agent, registry: nat, self: Pid, pass: nat, w: Sweep.World, left: set<Id>, id: Id)
    requires Between(s, k, registry, self, pass, w, left) && id in left
    ensures Entry(s, k, id, pass) && Enabled(s, TakeStep(k, id, pass))
  {
    StillThere(w, pass, left, id);
    ListedIsSeen(s, registry, self, pass);
    assert id in Listed(s, registry, pass);
    ReachableIsSound(s);
    assert ClusterInv(id, s.clusters[id]);
  }

  function TakeStep(k: Agent, id: Id, pass: nat): Step {
    if pass == 1 then List1(k, id) else if pass == 2 then List2(k, id) else List3(k, id)
  }

  /** An entry not yet taken up is still there. */
  lemma StillThere(w: Sweep.World, pass: nat, left: set<Id>, id: Id)
    requires id in left && left <= Entries(w, pass) && 1 <= pass <= 3 && (pass == 2 ==> w.OneDirEach())
    ensures id in Entries(After(w, pass, Entries(w, pass) - left), pass)
  {
    var done := Entries(w, pass) - left;
    if pass == 2 {
      Sweep.DirsOneMore(w, done, id);
      assert Library(id) in w.AfterDirs(done).dirs;
    }
  }

  lemma OneMore(w: Sweep.World, pass: nat, left: set<Id>, id: Id)
    requires left + {id} <= Entries(w, pass) && id !in left && 1 <= pass <= 3 && (pass == 2 ==> w.OneDirEach())
    ensures After(After(w, pass, Entries(w, pass) - (left + {id})), pass, {id}) == After(w, pass, Entries(w, pass) - left)
  {
    var done := Entries(w, pass) - (left + {id});
    assert done + {id} == Entries(w, pass) - left;
    if pass == 1 {
      Sweep.RecordsOneMore(w, done, id);
    } else if pass == 2 {
      Sweep.DirsOneMore(w, done, id);
    } else {
      Sweep.LocksOneMore(w, done, id);
    }
  }

  lemma EntryDone(b: State, t: State, k: Agent, registry: nat, self: Pid, pass: nat, w: Sweep.World, left: set<Id>, id: Id)
    requires Started(b, k, registry, self, pass, w, left, id) && Reachable(t) && Done(b, t, k, id, pass)
    ensures Between(t, k, registry, self, pass, w, left)
  {
    OneMore(w, pass, left, id);
    ReadyAgain(b, t, k, registry, self, id, pass);
    if pass == 1 {
      Reclaim1(b, t, k, registry, self, id);
    } else if pass == 2 {
      Reclaim2(b, t, k, registry, self, id);
    } else {
      Reclaim3(b, t, k, registry, self, id);
    }
  }

  /** Still within the entry, or at its end. */
  ghost predicate Further(b: State, t: State, k: Agent, registry: nat, self: Pid, pass: nat, w: Sweep.World,
                          left: set<Id>, id: Id) {
    k in t.sweepers
    && if t.sweepers[k].at.Idle? then Between(t, k, registry, self, pass, w, left) else Within(b, t, k, id, pass)
  }

  lemma AdvanceWithin(b: State, s: State, t: State, k: Agent, registry: nat, self: Pid, pass: nat,
                      w: Sweep.World, left: set<Id>, id: Id)
    requires Started(b, k, registry, self, pass, w, left, id) && Within(b, s, k, id, pass) && s.sweepers[k].at.Todo() == {}
    requires t == Advanced(s, k) && Reachable(t)
    ensures Further(b, t, k, registry, self, pass, w, left, id)
  {
    AdvanceAny(b, s, k, id, pass);
    if t.sweepers[k].at.Idle? {
      EntryDone(b, t, k, registry, self, pass, w, left, id);
    }
  }

  lemma AdvanceAny(b: State, s: State, k: Agent, id: Id, pass: nat)
    requires Entry(b, k, id, pass) && Doing(b, s, k, id, pass) && s.sweepers[k].at.Todo() == {} && 1 <= pass <= 3
    ensures OnOrDone(b, Advanced(s, k), k, id, pass)
  {
    if pass == 1 {
      Advance1(b, s, k, id);
    } else if pass == 2 {
      Advance2(b, s, k, id);
    } else {
      Advance3(b, s, k, id);
    }
  }

  /** One step within an entry leads on within it, or to its end. */
  lemma StepWithin(b: State, s: State, k: Agent, registry: nat, self: Pid, pass: nat, w: Sweep.World,
                   left: set<Id>, id: Id, step: Step)
    requires Started(b, k, registry, self, pass, w, left, id) && Within(b, s, k, id, pass)
    requires GoesOn(step, k) && Enabled(s, step)
    ensures Further(b, Apply(s, step), k, registry, self, pass, w, left, id)
  {
    ReachesNext(s, step);
    if step.Kill? {
      KillWithin(b, s, k, id, pass, step.pid);
    } else {
      AdvanceWithin(b, s, Apply(s, step), k, registry, self, pass, w, left, id);
    }
  }

  lemma KillWithin(b: State, s: State, k: Agent, id: Id, pass: nat, pid: Pid)
    requires Doing(b, s, k, id, pass) && pid in s.sweepers[k].at.Todo()
    ensures Doing(b, KillOne(s, k, pid), k, id, pass) && !KillOne(s, k, pid).sweepers[k].at.Idle?
  {
    KillGoesOn(b, s, k, id, pass, pid);
  }

  lemma StepBetween(s: State, k: Agent, registry: nat, self: Pid, pass: nat, w: Sweep.World, left: set<Id>, step: Step)
    requires Between(s, k, registry, self, pass, w, left) && Takes(step, k, pass) && step.id in left && Enabled(s, step)
    ensures Started(s, k, registry, self, pass, w, left - {step.id}, step.id)
    ensures Within(s, Apply(s, step), k, step.id, pass)
  {
    var id := step.id;
    IsEntry(s, k, registry, self, pass, w, left, id);
    ReachesNext(s, step);
    TakeUp(s, k, registry, self, id, pass);
    assert left - {id} + {id} == left;
  }

  /** What the rest of the sweep makes of a pass that started with the world `w`. */
  function Rest(w: Sweep.World, pass: nat): Sweep.World {
    if pass == 1 then w.Swept() else if pass == 2 then w.Pass2().Pass3() else w.Pass3()
  }

  lemma NextPass(s: State, k: Agent, registry: nat, self: Pid, pass: nat, w: Sweep.World)
    requires Between(s, k, registry, self, pass, w, {}) && pass < 3
    ensures var v := Seen(s, registry, self);
            Between(s, k, registry, self, pass + 1, v, Listed(s, registry, pass + 1)) && Rest(v, pass + 1) == Rest(w, pass)
  {
    var v := Seen(s, registry, self);
    assert Entries(w, pass) - {} == Entries(w, pass);
    StartPass(s, k, registry, self, pass + 1);
  }

  lemma StartPass(s: State, k: Agent, registry: nat, self: Pid, pass: nat)
    requires Reachable(s) && Ready(s, k, registry, self) && 1 <= pass <= 3
    ensures Between(s, k, registry, self, pass, Seen(s, registry, self), Listed(s, registry, pass))
  {
    var v := Seen(s, registry, self);
    ListedIsSeen(s, registry, self, pass);
    ReachableIsSound(s);
    SeenIsOrderly(s, registry, self);
    Sweep.NothingDone(v);
    assert Entries(v, pass) - Entries(v, pass) == {};
  }

  ghost predicate EndsAs(t: State, k: Agent, registry: nat, self: Pid, w: Sweep.World) {
    Ready(t, k, registry, self) && Seen(t, registry, self) == w
  }

  lemma {:induction false} FromBetween(s: State, k: Agent, registry: nat, self: Pid, pass: nat, w: Sweep.World,
                                       left: set<Id>, steps: seq<Step>)
    requires Between(s, k, registry, self, pass, w, left) && SweepsOn(s, k, pass, left, steps)
    ensures Legal(s, steps) && EndsAs(Exec(s, steps), k, registry, self, Rest(w, pass))
    decreases |steps|, 3 - pass
  {
    if left != {} {
      StepBetween(s, k, registry, self, pass, w, left, steps[0]);
      FromWithin(s, Apply(s, steps[0]), k, registry, self, pass, w, left - {steps[0].id}, steps[0].id, steps[1..]);
    } else if pass < 3 {
      NextPass(s, k, registry, self, pass, w);
      FromBetween(s, k, registry, self, pass + 1, Seen(s, registry, self), Listed(s, registry, pass + 1), steps);
    } else {
      assert Entries(w, pass) - {} == Entries(w, pass);
    }
  }

  lemma {:induction false} FromWithin(b: State, s: State, k: Agent, registry: nat, self: Pid, pass: nat,
                                      w: Sweep.World, left: set<Id>, id: Id, steps: seq<Step>)
    requires Started(b, k, registry, self, pass, w, left, id) && Within(b, s, k, id, pass)
    requires SweepsOn(s, k, pass, left, steps)
    ensures Legal(s, steps) && EndsAs(Exec(s, steps), k, registry, self, Rest(w, pass))
    decreases |steps|, 3 - pass
  {
    StepWithin(b, s, k, registry, self, pass, w, left, id, steps[0]);
    var t := Apply(s, steps[0]);
    if t.sweepers[k].at.Idle? {
      FromBetween(t, k, registry, self, pass, w, left, steps[1..]);
    } else {
      FromWithin(b, t, k, registry, self, pass, w, left, id, steps[1..]);
    }
  }

  /** From any point of any run at which nobody is in the middle of a sweep, every sweep that a
      sweeper then runs alone, one call at a time and entries in any order, is legal and leaves
      exactly the world that `CleanOrphans` is proved to leave. */
  lemma SweepAlone(steps: seq<Step>, k: Agent, registry: nat, self: Pid, sweep: seq<Step>)
    requires Legal(EMPTY, steps) && Ready(Exec(EMPTY, steps), k, registry, self)
    requires SoloSweep(Exec(EMPTY, steps), k, sweep)
    ensures var s := Exec(EMPTY, steps);
            Legal(s, sweep) && EndsAs(Exec(s, sweep), k, registry, self, Seen(s, registry, self).Swept())
  {
    var s := Exec(EMPTY, steps);
    assert Reachable(s);
    StartPass(s, k, registry, self, 1);
    FromBetween(s, k, registry, self, 1, Seen(s, registry, self), Listed(s, registry, 1), sweep);
  }

  // -------- There is such a sweep --------

  /** How many calls an entry can still take. */
  function Rank(at: At): nat {
    match at
    case Idle => 0
    case OpenLock1 => 10
    case Flock1(_) => 9
    case ReadRecord(_) => 8
    case KillRecorded(_, _, _) => 7
    case Enumerate1(_, _) => 6
    case KillUsing1(_, _, _) => 5
    case RemoveDir1(_, _) => 4
    case RemoveRecord1(_) => 3
    case RemoveLock1(_) => 2
    case Release1(_) => 1
    case StatRecord2 => 9
    case StatLock2 => 8
    case OpenLock2 => 7
    case Flock2(_) => 6
    case Release2(_) => 5
    case CheckAge2 => 6
    case CheckUse2 => 5
    case Enumerate2 => 4
    case KillUsing2(_) => 3
    case RemoveDir2 => 2
    case RemoveLock2 => 1
    case StatRecord3 => 5
    case OpenLock3 => 4
    case Flock3(_) => 3
    case Release3(_) => 2
    case Unlink3 => 1
  }

  predicate Nearer(at: At, next: At) { Rank(next) < Rank(at) || (Rank(next) == Rank(at) && next.Todo() < at.Todo()) }

  lemma CallsRunOut(s: State, k: Agent)
    requires k in s.sweepers && s.sweepers[k].id in s.clusters && !s.sweepers[k].at.Idle?
    ensures k in Advanced(s, k).sweepers && Nearer(s.sweepers[k].at, Advanced(s, k).sweepers[k].at)
  {
    CallNearer(s, s.clusters[s.sweepers[k].id], k, s.sweepers[k]);
  }

  lemma CallNearer(s: State, c: Cluster, k: Agent, w: Sweeper)
    requires !w.at.Idle?
    ensures Rank(Call(s, c, k, w).1) < Rank(w.at)
  {
  }

  lemma KillsRunOut(s: State, k: Agent, pid: Pid)
    requires k in s.sweepers && pid in s.sweepers[k].at.Todo()
    ensures k in KillOne(s, k, pid).sweepers && Nearer(s.sweepers[k].at, KillOne(s, k, pid).sweepers[k].at)
  {
    KillChanges(s, k, pid);
  }

  /** The sweep can be brought to its end. */
  ghost predicate CanFinish(s: State, k: Agent, pass: nat, left: set<Id>) {
    k in s.sweepers && exists steps :: SweepsOn(s, k, pass, left, steps)
  }

  lemma {:induction false} CanGoOn(s: State, k: Agent, registry: nat, self: Pid, pass: nat, w: Sweep.World, left: set<Id>)
    requires Between(s, k, registry, self, pass, w, left)
    ensures CanFinish(s, k, pass, left)
    decreases 3 - pass, left, 0
  {
    if left != {} {
      var id :| id in left;
      IsEntry(s, k, registry, self, pass, w, left, id);
      var step := TakeStep(k, id, pass);
      StepBetween(s, k, registry, self, pass, w, left, step);
      CanGoOnWithin(s, Apply(s, step), k, registry, self, pass, w, left - {id}, id);
      TakenUp(s, k, pass, left, step);
    } else if pass < 3 {
      NextPass(s, k, registry, self, pass, w);
      CanGoOn(s, k, registry, self, pass + 1, Seen(s, registry, self), Listed(s, registry, pass + 1));
      NextPassToo(s, k, pass);
    } else {
      assert SweepsOn(s, k, pass, left, []);
    }
  }

  lemma {:induction false} CanGoOnWithin(b: State, s: State, k: Agent, registry: nat, self: Pid, pass: nat,
                                         w: Sweep.World, left: set<Id>, id: Id)
    requires Started(b, k, registry, self, pass, w, left, id) && Within(b, s, k, id, pass)
    ensures CanFinish(s, k, pass, left)
    decreases 3 - pass, left, Rank(s.sweepers[k].at), s.sweepers[k].at.Todo()
  {
    var step, t := NextWithin(b, s, k, registry, self, pass, w, left, id);
    if t.sweepers[k].at.Idle? {
      CanGoOn(t, k, registry, self, pass, w, left);
    } else {
      CanGoOnWithin(b, t, k, registry, self, pass, w, left, id);
    }
    WentOn(s, t, k, pass, left, step);
  }

  /** What a sweeper at work does next, one of its kills or its call, brings it nearer to the end. */
  lemma NextWithin(b: State, s: State, k: Agent, registry: nat, self: Pid, pass: nat, w: Sweep.World, left: set<Id>, id: Id)
    returns (step: Step, t: State)
    requires Started(b, k, registry, self, pass, w, left, id) && Within(b, s, k, id, pass)
    ensures GoesOn(step, k) && Enabled(s, step) && t == Apply(s, step)
    ensures Further(b, t, k, registry, self, pass, w, left, id) && Nearer(s.sweepers[k].at, t.sweepers[k].at)
    ensures Rank(s.sweepers[k].at) > 0
  {
    step := NextStep(s, k);
    t := Apply(s, step);
    NextIsNearer(s, k);
    StepWithin(b, s, k, registry, self, pass, w, left, id, step);
  }

  ghost function NextStep(s: State, k: Agent): (step: Step)
    requires k in s.sweepers && !s.sweepers[k].at.Idle? && s.sweepers[k].id in s.clusters
    ensures GoesOn(step, k) && Enabled(s, step)
  {
    var todo := s.sweepers[k].at.Todo();
    if todo == {} then Advance(k) else var pid :| pid in todo; Kill(k, pid)
  }

  lemma NextIsNearer(s: State, k: Agent)
    requires k in s.sweepers && !s.sweepers[k].at.Idle? && s.sweepers[k].id in s.clusters
    ensures var t := Apply(s, NextStep(s, k)); k in t.sweepers && Nearer(s.sweepers[k].at, t.sweepers[k].at)
    ensures Rank(s.sweepers[k].at) > 0
  {
    var step := NextStep(s, k);
    if step.Kill? {
      KillsRunOut(s, k, step.pid);
    } else {
      CallsRunOut(s, k);
    }
  }

  lemma TakenUp(s: State, k: Agent, pass: nat, left: set<Id>, step: Step)
    requires k in s.sweepers && s.sweepers[k].at.Idle? && Takes(step, k, pass) && step.id in left && Enabled(s, step)
    requires CanFinish(Apply(s, step), k, pass, left - {step.id})
    ensures CanFinish(s, k, pass, left)
  {
    var rest :| SweepsOn(Apply(s, step), k, pass, left - {step.id}, rest);
    var steps := [step] + rest;
    assert steps[0] == step && steps[1..] == rest;
    assert SweepsOn(s, k, pass, left, steps);
  }

  lemma WentOn(s: State, t: State, k: Agent, pass: nat, left: set<Id>, step: Step)
    requires k in s.sweepers && !s.sweepers[k].at.Idle? && GoesOn(step, k) && Enabled(s, step)
    requires t == Apply(s, step) && CanFinish(t, k, pass, left)
    ensures CanFinish(s, k, pass, left)
  {
    var rest :| SweepsOn(t, k, pass, left, rest);
    var steps := [step] + rest;
    assert steps[0] == step && steps[1..] == rest;
    assert SweepsOn(s, k, pass, left, steps);
  }

  lemma NextPassToo(s: State, k: Agent, pass: nat)
    requires k in s.sweepers && s.sweepers[k].at.Idle? && pass < 3
    requires CanFinish(s, k, pass + 1, Listed(s, s.sweepers[k].registry, pass + 1))
    ensures CanFinish(s, k, pass, {})
  {
    var steps :| SweepsOn(s, k, pass + 1, Listed(s, s.sweepers[k].registry, pass + 1), steps);
    assert SweepsOn(s, k, pass, {}, steps);
  }

  /** A sweeper alone is never stuck: there is such a sweep from every such point. */
  lemma SweepExists(steps: seq<Step>, k: Agent, registry: nat, self: Pid)
    requires Legal(EMPTY, steps) && Ready(Exec(EMPTY, steps), k, registry, self)
    ensures exists sweep :: SoloSweep(Exec(EMPTY, steps), k, sweep)
  {
    var s := Exec(EMPTY, steps);
    assert Reachable(s);
    StartPass(s, k, registry, self, 1);
    CanGoOn(s, k, registry, self, 1, Seen(s, registry, self), Listed(s, registry, 1));
    var sweep :| SweepsOn(s, k, 1, Listed(s, registry, 1), sweep);
    assert SoloSweep(s, k, sweep);
  }

  /** So every sweep that a sweeper runs alone leaves nothing of a dead owner whose directory is
      old, if and only if what it finds is recoverable. */
  lemma OrphanIsReclaimed(steps: seq<Step>, id: Id, k: Agent, self: Pid, sweep: seq<Step>)
    requires Legal(EMPTY, steps)
    requires var s := Exec(EMPTY, steps);
             && Dead(s, id) && Ready(s, k, s.clusters[id].registry, self) && SoloSweep(s, k, sweep)
             && (s.clusters[id].dir.Some? ==> s.now - s.clusters[id].dir.value >= GRACE)
    ensures var s := Exec(EMPTY, steps); var registry := s.clusters[id].registry;
            && Legal(s, sweep)
            && (NothingLeft(Seen(Exec(s, sweep), registry, self), id) <==> Recoverable(Seen(s, registry, self), id))
  {
    var s := Exec(EMPTY, steps);
    RunKeeps(EMPTY, steps);
    SweepAlone(steps, k, s.clusters[id].registry, self, sweep);
    CrashRecovery(s, id, self);
  }
}
