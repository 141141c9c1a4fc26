/** Any number of processes resolving the same version at once (binaries.go:57-103,
    lock.go:69-82): look, take a lock that is never unlinked, look again, install by rename.
    Any of them may fail or die at any step. Nobody else deletes from the cache. */
module BinaryCache {
  import opened Download

  datatype Component = PD | TiKV

  /** What the mirror and the readers do, the same for everybody. */
  datatype Mirror = Mirror(hash: Bytes -> string, unpack: Bytes -> Archive, entries: map<Component, Entry>)
  {
    ghost predicate Serves(c: Component, content: Bytes) {
      c in entries && Genuine(hash, unpack, entries[c], content)
    }

    ghost predicate ServesBoth() {
      (exists content :: Serves(PD, content)) && exists content :: Serves(TiKV, content)
    }
  }

  /** Where a process is in `resolveBinaries`. From `Recheck` to `Unlock` it holds the lock; a
      `Temp` is the temporary file it has filled. */
  datatype At =
    | LookPD | LookTiKV | WantLock
    | Recheck(c: Component) | Fetch(c: Component) | Checked(c: Component, temp: File) | Ready(c: Component, temp: File)
    | Unlock(ok: bool) | Found | Error
  {
    predicate Inside() { Recheck? || Fetch? || Checked? || Ready? || Unlock? }
  }

  /** `installs` counts the renames onto each path. */
  datatype State = State(files: map<Component, File>, installs: map<Component, nat>, lock: set<nat>, procs: map<nat, At>)
  {
    predicate Executable(c: Component) { c in files && files[c].executable }
    function Go(p: nat, at: At): State { this.(procs := procs[p := at]) }
    function Installs(c: Component): nat { if c in installs then installs[c] else 0 }
  }

  const EMPTY := State(map[], map[], {}, map[])

  datatype Step =
    | Join(p: nat) | Look(p: nat) | Lock(p: nat)
    | LookAgain(p: nat) | Download(p: nat, content: Bytes) | Chmod(p: nat) | Rename(p: nat) | Fail(p: nat)
    | Leave(p: nat) | Dies(p: nat)

  ghost predicate Enabled(m: Mirror, s: State, step: Step) {
    if step.Join? then step.p !in s.procs
    else
      step.p in s.procs &&
      var at := s.procs[step.p];
      match step
      case Look(_) => at.LookPD? || at.LookTiKV?
      case Lock(_) => at.WantLock? && s.lock == {}
      case LookAgain(_) => at.Recheck?
      // Download.Directory.Install: the body's hash matched and this is what it unpacks to
      case Download(_, content) => at.Fetch? && m.Serves(at.c, content)
      case Chmod(_) => at.Checked?
      case Rename(_) => at.Ready?
      case Fail(_) => at.Inside() && !at.Unlock?
      case Leave(_) => at.Unlock?
      case Dies(_) => true
      case Join(_) => true
  }

  function Next(c: Component): At { if c.PD? then Recheck(TiKV) else Unlock(true) }

  function Apply(s: State, step: Step): State {
    if step.Join? then s.Go(step.p, LookPD)
    else if step.p !in s.procs then s
    else
      var at := s.procs[step.p];
      match step
      case Join(_) => s
      case Look(p) =>
        if at.LookPD? then s.Go(p, if s.Executable(PD) then LookTiKV else WantLock)
        else s.Go(p, if s.Executable(TiKV) then Found else WantLock)
      case Lock(p) => s.(lock := s.lock + {p}).Go(p, Recheck(PD))
      case LookAgain(p) =>
        if !at.Recheck? then s else s.Go(p, if s.Executable(at.c) then Next(at.c) else Fetch(at.c))
      case Download(p, content) => if !at.Fetch? then s else s.Go(p, Checked(at.c, File(content, false)))
      case Chmod(p) => if !at.Checked? then s else s.Go(p, Ready(at.c, at.temp.(executable := true)))
      case Rename(p) =>
        if !at.Ready? then s
        else s.(files := s.files[at.c := at.temp], installs := s.installs[at.c := s.Installs(at.c) + 1]).Go(p, Next(at.c))
      case Fail(p) => s.Go(p, Unlock(false))
      case Leave(p) => s.(lock := s.lock - {p}).Go(p, if at.Unlock? && at.ok then Found else Error)
      case Dies(p) => s.(lock := s.lock - {p}, procs := s.procs - {p})
  }

  ghost predicate Legal(m: Mirror, s: State, steps: seq<Step>)
    decreases |steps|
  {
    steps == [] || (Enabled(m, s, steps[0]) && Legal(m, Apply(s, steps[0]), steps[1..]))
  }

  function Exec(s: State, steps: seq<Step>): State
    decreases |steps|
  {
    if steps == [] then s else Exec(Apply(s, steps[0]), steps[1..])
  }

  // -------- What every step keeps --------

  ghost predicate FileInv(m: Mirror, s: State, c: Component) {
    && (c in s.files ==> s.files[c].executable && m.Serves(c, s.files[c].content))
    && s.Installs(c) == if c in s.files then 1 else 0
  }

  ghost predicate ProcInv(m: Mirror, s: State, p: nat) {
    p in s.procs ==>
      var at := s.procs[p];
      && (at.Inside() <==> p in s.lock)
      && (at.Fetch? || at.Checked? || at.Ready? ==> at.c !in s.files)
      && (at.Checked? ==> !at.temp.executable && m.Serves(at.c, at.temp.content))
      && (at.Ready? ==> at.temp.executable && m.Serves(at.c, at.temp.content))
      && (at.LookTiKV? || ((at.Recheck? || at.Fetch? || at.Checked? || at.Ready?) && at.c.TiKV?) ==> PD in s.files)
      && (at.Found? || (at.Unlock? && at.ok) ==> PD in s.files && TiKV in s.files)
  }

  ghost predicate Inv(m: Mirror, s: State) {
    && (forall c :: FileInv(m, s, c))
    && (forall p :: ProcInv(m, s, p))
    && (forall p, q | p in s.lock && q in s.lock :: p == q)
    && (forall p | p in s.lock :: p in s.procs)
  }

  lemma StepKeepsFiles(m: Mirror, s: State, step: Step, c: Component)
    requires Inv(m, s) && Enabled(m, s, step)
    ensures FileInv(m, Apply(s, step), c)
  {
    assert FileInv(m, s, c) && ProcInv(m, s, step.p);
  }

  lemma StepKeepsOwn(m: Mirror, s: State, step: Step)
    requires Inv(m, s) && Enabled(m, s, step)
    ensures ProcInv(m, Apply(s, step), step.p)
  {
    assert ProcInv(m, s, step.p);
    if step.LookAgain? {
      assert FileInv(m, s, s.procs[step.p].c);
    }
  }

  /** The lock keeps everybody else out of what a step changes. */
  lemma StepKeepsOthers(m: Mirror, s: State, step: Step, p: nat)
    requires Inv(m, s) && Enabled(m, s, step) && p != step.p
    ensures ProcInv(m, Apply(s, step), p)
  {
    assert ProcInv(m, s, p) && ProcInv(m, s, step.p);
    assert p in s.lock && step.p in s.lock ==> p == step.p;
  }

  lemma StepKeeps(m: Mirror, s: State, step: Step)
    requires Inv(m, s) && Enabled(m, s, step)
    ensures Inv(m, Apply(s, step))
  {
    forall c ensures FileInv(m, Apply(s, step), c) { StepKeepsFiles(m, s, step, c); }
    StepKeepsOwn(m, s, step);
    forall p | p != step.p ensures ProcInv(m, Apply(s, step), p) { StepKeepsOthers(m, s, step, p); }
  }

  lemma {:induction false} RunKeeps(m: Mirror, s: State, steps: seq<Step>)
    requires Inv(m, s) && Legal(m, s, steps)
    ensures Inv(m, Exec(s, steps))
    decreases |steps|
  {
    if steps != [] {
      StepKeeps(m, s, steps[0]);
      RunKeeps(m, Apply(s, steps[0]), steps[1..]);
    }
  }

  // -------- What follows --------

  /** At every point of every run a binary's path is absent, or names a complete, executable file
      unpacked from a body with the manifest's hash; and it was installed at most once. */
  lemma InstalledAtMostOnce(m: Mirror, steps: seq<Step>, c: Component)
    requires Legal(m, EMPTY, steps)
    ensures var s := Exec(EMPTY, steps);
            && s.Installs(c) <= 1 && (s.Installs(c) == 1 <==> c in s.files)
            && (c in s.files ==> s.files[c].executable && m.Serves(c, s.files[c].content))
  {
    RunKeeps(m, EMPTY, steps);
    assert FileInv(m, Exec(EMPTY, steps), c);
  }

  /** Whoever returns without an error has both binaries. */
  lemma FoundMeansBoth(m: Mirror, steps: seq<Step>, p: nat)
    requires Legal(m, EMPTY, steps) && p in Exec(EMPTY, steps).procs && Exec(EMPTY, steps).procs[p].Found?
    ensures Exec(EMPTY, steps).Executable(PD) && Exec(EMPTY, steps).Executable(TiKV)
  {
    RunKeeps(m, EMPTY, steps);
    var s := Exec(EMPTY, steps);
    assert ProcInv(m, s, p) && FileInv(m, s, PD) && FileInv(m, s, TiKV);
  }

  /** An installed binary stays as it is. */
  lemma {:induction false} InstalledForGood(m: Mirror, steps: seq<Step>, more: seq<Step>, c: Component)
    requires Legal(m, EMPTY, steps) && Legal(m, Exec(EMPTY, steps), more) && c in Exec(EMPTY, steps).files
    ensures var s := Exec(EMPTY, steps); var t := Exec(s, more); c in t.files && t.files[c] == s.files[c]
  {
    RunKeeps(m, EMPTY, steps);
    StaysInstalled(m, Exec(EMPTY, steps), more, c);
  }

  lemma {:induction false} StaysInstalled(m: Mirror, s: State, steps: seq<Step>, c: Component)
    requires Inv(m, s) && Legal(m, s, steps) && c in s.files
    ensures c in Exec(s, steps).files && Exec(s, steps).files[c] == s.files[c]
    decreases |steps|
  {
    if steps != [] {
      StepKeeps(m, s, steps[0]);
      assert ProcInv(m, s, steps[0].p);
      assert c in Apply(s, steps[0]).files && Apply(s, steps[0]).files[c] == s.files[c];
      StaysInstalled(m, Apply(s, steps[0]), steps[1..], c);
    }
  }

  // -------- Who gets both --------

  /** Somebody who is about to leave the lock with an error, or has. */
  predicate GivesUp(s: State, p: nat) { p in s.procs && (s.procs[p].Error? || s.procs[p] == Unlock(false)) }

  /** Whoever returns an error has failed at something while it held the lock: the lock is never
      left in vain. */
  lemma ErrorMeansFailure(m: Mirror, steps: seq<Step>, p: nat)
    requires Legal(m, EMPTY, steps) && p in Exec(EMPTY, steps).procs && Exec(EMPTY, steps).procs[p].Error?
    ensures Fail(p) in steps
  {
    GivenUp(m, EMPTY, steps, p);
  }

  lemma {:induction false} GivenUp(m: Mirror, s: State, steps: seq<Step>, p: nat)
    requires Legal(m, s, steps) && GivesUp(Exec(s, steps), p)
    ensures GivesUp(s, p) || Fail(p) in steps
    decreases |steps|
  {
    if steps != [] {
      GivenUp(m, Apply(s, steps[0]), steps[1..], p);
      if GivesUp(Apply(s, steps[0]), p) {
        StepGivesUp(m, s, steps[0], p);
      }
    }
  }

  lemma StepGivesUp(m: Mirror, s: State, step: Step, p: nat)
    requires Enabled(m, s, step) && GivesUp(Apply(s, step), p)
    ensures GivesUp(s, p) || step == Fail(p)
  {
  }

  /** Where both are installed, looking is enough: nobody waits for the lock. */
  lemma FoundWithoutLock(m: Mirror, s: State, p: nat)
    requires p in s.procs && s.procs[p].LookPD? && s.Executable(PD) && s.Executable(TiKV)
    ensures Legal(m, s, [Look(p), Look(p)]) && Exec(s, [Look(p), Look(p)]) == s.Go(p, Found)
  {
    var s1 := s.Go(p, LookTiKV);
    assert [Look(p), Look(p)][1..] == [Look(p)] && [Look(p)][1..] == [];
    assert Apply(s, Look(p)) == s1;
    assert Apply(s1, Look(p)) == s.Go(p, Found);
    assert Legal(m, s1, [Look(p)]) && Exec(s1, [Look(p)]) == s.Go(p, Found);
  }

  /** The process goes about its business: it neither fails nor dies. */
  predicate Business(step: Step, p: nat) { step.p == p && !step.Fail? && !step.Dies? && !step.Join? }

  ghost predicate CanFind(m: Mirror, s: State, p: nat) {
    exists steps :: Legal(m, s, steps) && (forall step | step in steps :: Business(step, p))
                    && p in Exec(s, steps).procs && Exec(s, steps).procs[p].Found?
  }

  function Rank(at: At): nat {
    match at
    case LookPD => 13
    case LookTiKV => 12
    case WantLock => 11
    case Recheck(c) => if c.PD? then 10 else 6
    case Fetch(c) => if c.PD? then 9 else 5
    case Checked(c, _) => if c.PD? then 8 else 4
    case Ready(c, _) => if c.PD? then 7 else 3
    case Unlock(_) => 2
    case Error => 1
    case Found => 0
  }

  /** A process that holds the lock, or that nobody keeps from it, can always go on to find both
      binaries, if the mirror serves them. */
  lemma {:induction false} NobodyIsStuck(m: Mirror, s: State, p: nat)
    requires Inv(m, s) && p in s.procs && s.lock <= {p}
    requires !s.procs[p].Error? && s.procs[p] != Unlock(false)
    requires m.ServesBoth()
    ensures CanFind(m, s, p)
    decreases Rank(s.procs[p])
  {
    if s.procs[p].Found? {
      assert Legal(m, s, []) && Exec(s, []) == s;
    } else {
      var step := NextStep(m, s, p);
      StepKeeps(m, s, step);
      NobodyIsStuck(m, Apply(s, step), p);
      Before(m, s, step, p);
    }
  }

  lemma NextStep(m: Mirror, s: State, p: nat) returns (step: Step)
    requires Inv(m, s) && p in s.procs && s.lock <= {p}
    requires !s.procs[p].Found? && !s.procs[p].Error? && s.procs[p] != Unlock(false)
    requires m.ServesBoth()
    ensures Business(step, p) && Enabled(m, s, step) && Nearer(s, Apply(s, step), p)
  {
    assert ProcInv(m, s, p);
    match s.procs[p]
    case LookPD => step := Look(p);
    case LookTiKV => step := Look(p);
    case WantLock => step := Lock(p);
    case Recheck(_) => step := LookAgain(p);
    case Fetch(c) =>
      step := SomeDownload(m, c, p);
    case Checked(_, _) => step := Chmod(p);
    case Ready(_, _) => step := Rename(p);
    case Unlock(_) => step := Leave(p);
    BusinessHelps(m, s, step, p);
  }

  lemma SomeDownload(m: Mirror, c: Component, p: nat) returns (step: Step)
    requires m.ServesBoth()
    ensures step.Download? && step.p == p && m.Serves(c, step.content)
  {
    if c.PD? {
      var content :| m.Serves(PD, content);
      step := Download(p, content);
    } else {
      var content :| m.Serves(TiKV, content);
      step := Download(p, content);
    }
  }

  /** Still with the lock or with nobody holding it, and nearer to the end. */
  ghost predicate Nearer(s: State, t: State, p: nat) {
    && p in s.procs && p in t.procs && t.lock <= {p} && Rank(t.procs[p]) < Rank(s.procs[p])
    && !t.procs[p].Error? && t.procs[p] != Unlock(false)
  }

  lemma BusinessHelps(m: Mirror, s: State, step: Step, p: nat)
    requires Inv(m, s) && p in s.procs && s.lock <= {p} && Business(step, p) && Enabled(m, s, step)
    requires !s.procs[p].Found? && !s.procs[p].Error? && s.procs[p] != Unlock(false)
    ensures Nearer(s, Apply(s, step), p)
  {
  }

  lemma Before(m: Mirror, s: State, step: Step, p: nat)
    requires Enabled(m, s, step) && Business(step, p) && CanFind(m, Apply(s, step), p)
    ensures CanFind(m, s, p)
  {
    var rest :| Legal(m, Apply(s, step), rest) && (forall x | x in rest :: Business(x, p))
                && p in Exec(Apply(s, step), rest).procs && Exec(Apply(s, step), rest).procs[p].Found?;
    var steps := [step] + rest;
    assert steps[0] == step && steps[1..] == rest;
    assert Legal(m, s, steps);
  }

  /** Over whole runs: whoever is in the middle of it, with nobody else holding the lock, can get
      both. */
  lemma EverybodyCanFind(m: Mirror, steps: seq<Step>, p: nat)
    requires Legal(m, EMPTY, steps) && p in Exec(EMPTY, steps).procs && Exec(EMPTY, steps).lock <= {p}
    requires !GivesUp(Exec(EMPTY, steps), p) && m.ServesBoth()
    ensures CanFind(m, Exec(EMPTY, steps), p)
  {
    RunKeeps(m, EMPTY, steps);
    NobodyIsStuck(m, Exec(EMPTY, steps), p);
  }
}
