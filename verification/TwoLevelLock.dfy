/**
  Shared counters under two levels of locking: a System V semaphore with SEM_UNDO between processes, and a private
  mutex between the two threads of each process, for any number of processes and `n` iterations per thread.

  Every `++` and `--` is a load and a store. A process can fail to create a thread and exit while it holds the
  semaphore, it can be killed at any point, and either of its semaphore calls can fail, after which it carries on.
 */
module TwoLevelLock {
  import opened Options

  datatype MainPc = AtLock | AtCreate1 | AtCreate2 | AtJoin1 | AtJoin2 | AtUnlock | AtExit | Gone

  datatype WorkerPc =
    | Absent
    | AtMutex
    | AtLoad(v: nat)                 // about to load variable v
    | AtStore(v: nat, loaded: int)   // about to store it back, changed by one
    | AtRelease
    | Finished

  /** `done` counts completed iterations. */
  datatype Worker = Worker(pc: WorkerPc, done: nat)

  /** Worker 0 increments, worker 1 decrements. `undo` is the pending SEM_UNDO adjustment. */
  datatype Proc = Proc(main: MainPc, undo: int, mutex: Option<nat>, inc: Worker, dec: Worker)

  datatype State = State(sem: int, vars: seq<int>, procs: seq<Proc>)

  /** Which of the two locks the program takes, and whether the call that takes the semaphore can fail. */
  datatype Setup = Setup(semaphore: bool, mutex: bool, lockFails: bool)

  /** The code: both locks, and nothing is done about a failing call. */
  const CODE := Setup(true, true, true)

  /** The code where taking the semaphore never fails. */
  const BOTH := Setup(true, true, false)

  const INITIAL: seq<int> := [10, 12, 14]

  datatype Action =
    | Main(p: nat, works: bool)   // works: whether its library call does, if it can fail
    | Work(p: nat, isInc: bool)
    | Kill(p: nat)

  function Fresh(): Proc {
    Proc(AtLock, 0, None, Worker(Absent, 0), Worker(Absent, 0))
  }

  function Init(procs: nat): State {
    State(1, INITIAL, seq(procs, _ => Fresh()))
  }

  function Ended(): Proc {
    Proc(Gone, 0, None, Worker(Absent, 0), Worker(Absent, 0))
  }

  /** The kernel's undo at exit; a value that would be negative becomes 0. */
  function Undone(sem: int, undo: int): int {
    if sem + undo < 0 then 0 else sem + undo
  }

  /** The process ends: its threads vanish where they are and the kernel applies its undo adjustment. */
  function Die(s: State, p: nat): State
    requires p < |s.procs|
  {
    s.(sem := Undone(s.sem, s.procs[p].undo), procs := s.procs[p := Ended()])
  }

  function Created(n: nat): Worker {
    Worker(if 0 < n then AtMutex else Finished, 0)
  }

  /** `sem_lock`: semop -1 with SEM_UNDO; `None` while it blocks. After a failure the caller goes on without it. */
  function SemLock(setup: Setup, s: State, p: nat, works: bool): Option<State>
    requires p < |s.procs|
  {
    var q := s.procs[p];
    if !setup.semaphore || (setup.lockFails && !works) then Some(s.(procs := s.procs[p := q.(main := AtCreate1)]))
    else if !works || s.sem <= 0 then None
    else Some(s.(sem := s.sem - 1, procs := s.procs[p := q.(main := AtCreate1, undo := q.undo + 1)]))
  }

  /** `sem_unlock`: semop +1 with SEM_UNDO; after a failure the caller goes on, too. */
  function SemUnlock(setup: Setup, s: State, p: nat, works: bool): State
    requires p < |s.procs|
  {
    var q := s.procs[p];
    if !setup.semaphore || !works then s.(procs := s.procs[p := q.(main := AtExit)])
    else s.(sem := s.sem + 1, procs := s.procs[p := q.(main := AtExit, undo := q.undo - 1)])
  }

  function MainStep(setup: Setup, n: nat, s: State, p: nat, works: bool): Option<State>
    requires p < |s.procs|
  {
    var q := s.procs[p];
    match q.main
    case AtLock => SemLock(setup, s, p, works)
    case AtCreate1 =>
      if !works then Some(Die(s, p))
      else Some(s.(procs := s.procs[p := q.(main := AtCreate2, inc := Created(n))]))
    case AtCreate2 =>
      if !works then Some(Die(s, p))
      else Some(s.(procs := s.procs[p := q.(main := AtJoin1, dec := Created(n))]))
    case AtJoin1 => if q.inc.pc != Finished then None else Some(s.(procs := s.procs[p := q.(main := AtJoin2)]))
    case AtJoin2 => if q.dec.pc != Finished then None else Some(s.(procs := s.procs[p := q.(main := AtUnlock)]))
    case AtUnlock => Some(SemUnlock(setup, s, p, works))
    case AtExit => Some(Die(s, p))
    case Gone => None
  }

  function WorkerOf(q: Proc, isInc: bool): Worker {
    if isInc then q.inc else q.dec
  }

  function SetWorker(q: Proc, isInc: bool, w: Worker): Proc {
    if isInc then q.(inc := w) else q.(dec := w)
  }

  function MutexId(isInc: bool): nat {
    if isInc then 0 else 1
  }

  /** The next step of a worker: its process and the shared variables after it; `None` while it blocks. */
  function WorkerStep(setup: Setup, n: nat, q: Proc, vars: seq<int>, isInc: bool): Option<(Proc, seq<int>)> {
    var w := WorkerOf(q, isInc);
    match w.pc
    case AtMutex =>
      if !setup.mutex then Some((SetWorker(q, isInc, w.(pc := AtLoad(0))), vars))
      else if q.mutex.Some? then None
      else Some((SetWorker(q, isInc, w.(pc := AtLoad(0))).(mutex := Some(MutexId(isInc))), vars))
    case AtLoad(v) =>
      if v >= |vars| then None
      else Some((SetWorker(q, isInc, w.(pc := AtStore(v, vars[v]))), vars))
    case AtStore(v, loaded) =>
      if v >= |vars| then None
      else Some((SetWorker(q, isInc, w.(pc := if v + 1 < |vars| then AtLoad(v + 1) else AtRelease)),
                 vars[v := if isInc then loaded + 1 else loaded - 1]))
    case AtRelease =>
      var w' := Worker(if w.done + 1 < n then AtMutex else Finished, w.done + 1);
      Some((SetWorker(q, isInc, w').(mutex := if setup.mutex then None else q.mutex), vars))
    case _ => None
  }

  function Step(setup: Setup, n: nat, s: State, a: Action): Option<State> {
    if a.p >= |s.procs| then None
    else
      match a
      case Main(p, works) => MainStep(setup, n, s, p, works)
      case Work(p, isInc) =>
        var o := WorkerStep(setup, n, s.procs[p], s.vars, isInc);
        if o.None? then None else Some(s.(procs := s.procs[p := o.value.0], vars := o.value.1))
      case Kill(p) => if s.procs[p].main == Gone then None else Some(Die(s, p))
  }

  function Run(setup: Setup, procs: nat, n: nat, actions: seq<Action>): Option<State> {
    if actions == [] then Some(Init(procs))
    else
      var before := Run(setup, procs, n, actions[..|actions| - 1]);
      if before.None? then None else Step(setup, n, before.value, actions[|actions| - 1])
  }

  // ----- The invariant

  predicate InUpdate(w: Worker) {
    w.pc.AtLoad? || w.pc.AtStore? || w.pc.AtRelease?
  }

  /** How often a worker has changed variable `v`. */
  function Amount(w: Worker, v: nat): int {
    w.done + match w.pc
             case AtLoad(v') => if v < v' then 1 else 0
             case AtStore(v', _) => if v < v' then 1 else 0
             case AtRelease => 1
             case _ => 0
  }

  /** What a worker's counters say about where it is, with `count` variables to change. */
  predicate WorkerLocal(n: nat, w: Worker, count: nat) {
    && w.done <= n
    && (w.pc == Absent ==> w.done == 0)
    && (w.pc == Finished ==> w.done == n)
    && (w.pc == AtMutex || InUpdate(w) ==> w.done < n)
    && (w.pc.AtLoad? || w.pc.AtStore? ==> w.pc.v < count)
  }

  /** And nobody else has changed the variable it has loaded. */
  predicate WorkerSound(n: nat, w: Worker, vars: seq<int>) {
    WorkerLocal(n, w, |vars|) && (w.pc.AtStore? ==> w.pc.loaded == vars[w.pc.v])
  }

  /** A process without the semaphore has not begun, is on its way out with all work done, or is gone. */
  predicate Idle(n: nat, q: Proc) {
    q in {Fresh(), Proc(AtExit, 0, None, Worker(Finished, n), Worker(Finished, n)), Ended()}
  }

  predicate MainSound(q: Proc) {
    match q.main
    case AtCreate1 => q.inc.pc == Absent && q.dec.pc == Absent
    case AtCreate2 => q.inc.pc != Absent && q.dec.pc == Absent
    case AtJoin1 => q.inc.pc != Absent && q.dec.pc != Absent
    case AtJoin2 => q.inc.pc == Finished && q.dec.pc != Absent
    case AtUnlock => q.inc.pc == Finished && q.dec.pc == Finished
    case AtExit => q.inc.pc == Finished && q.dec.pc == Finished   // after a failed unlock
    case _ => false
  }

  /** Worker 0 has the mutex exactly while inside its update, and so has worker 1. */
  predicate MutexSound(q: Proc) {
    && (InUpdate(q.inc) <==> q.mutex == Some(0))
    && (InUpdate(q.dec) <==> q.mutex == Some(1))
    && (q.mutex.Some? ==> q.mutex.value in {0, 1})
  }

  /** A process past its lock call that found the variables at `base` and has been alone with them since. */
  predicate Alone(n: nat, q: Proc, vars: seq<int>, base: seq<int>) {
    && MainSound(q) && MutexSound(q)
    && WorkerSound(n, q.inc, vars) && WorkerSound(n, q.dec, vars)
    && |base| == |vars|
    && forall v: nat :: v < |vars| ==> vars[v] == base[v] + Amount(q.inc, v) - Amount(q.dec, v)
  }

  /** The process with the semaphore. */
  predicate Active(n: nat, q: Proc, vars: seq<int>, base: seq<int>) {
    q.undo == 1 && Alone(n, q, vars, base)
  }

  /** `holder` has the semaphore, or nobody has and the variables are at `base`. */
  predicate Inv(n: nat, s: State, holder: Option<nat>, base: seq<int>) {
    && |s.vars| == 3
    && (forall p :: 0 <= p < |s.procs| && holder != Some(p) ==> Idle(n, s.procs[p]))
    && match holder
       case None => s.sem == 1 && s.vars == base
       case Some(p) => s.sem == 0 && p < |s.procs| && Active(n, s.procs[p], s.vars, base)
  }

  lemma DieKeeps(n: nat, s: State, p: nat, holder: Option<nat>, base: seq<int>)
    requires Inv(n, s, holder, base) && p < |s.procs|
    ensures holder != Some(p) ==> Inv(n, Die(s, p), holder, base)
    ensures holder == Some(p) ==> Inv(n, Die(s, p), None, s.vars)
  {}

  /** What the threads of a process have added to variable `v`, all told. */
  function Net(q: Proc, v: nat): int {
    Amount(q.inc, v) - Amount(q.dec, v)
  }

  /** The process of `a` ends before its time: it is killed, or it cannot create a thread. */
  predicate IsDeath(s: State, a: Action) {
    a.Kill? || (a.Main? && a.p < |s.procs| && s.procs[a.p].main in {AtCreate1, AtCreate2} && !a.works)
  }

  /** What a death leaves behind in variable `v`. */
  function LostBy(s: State, a: Action, v: nat): int
    requires a.p < |s.procs|
  {
    if IsDeath(s, a) then Net(s.procs[a.p], v) else 0
  }

  /** The variables without a holder, after the loss by action `a`. */
  predicate Rebased(s: State, a: Action, base: seq<int>, base': seq<int>)
    requires a.p < |s.procs|
  {
    |base| == |base'| == 3 && forall v: nat :: v < 3 ==> base'[v] == base[v] + LostBy(s, a, v)
  }

  lemma DeathKeeps(n: nat, s: State, a: Action, holder: Option<nat>, base: seq<int>)
    returns (holder': Option<nat>, base': seq<int>)
    requires Inv(n, s, holder, base) && a.p < |s.procs| && IsDeath(s, a)
    ensures Inv(n, Die(s, a.p), holder', base') && Rebased(s, a, base, base')
  {
    DieKeeps(n, s, a.p, holder, base);
    holder', base' := holder, base;
    if holder == Some(a.p) { holder', base' := None, s.vars; }
  }

  lemma LeavingKeeps(n: nat, s: State, a: Action, holder: Option<nat>, base: seq<int>) returns (holder': Option<nat>)
    requires Inv(n, s, holder, base) && a.Main? && a.p < |s.procs| && s.procs[a.p].main in {AtUnlock, AtExit}
    ensures Inv(n, MainStep(BOTH, n, s, a.p, a.works).value, holder', base)
  {
    DieKeeps(n, s, a.p, holder, base);
    holder' := if holder == Some(a.p) && (a.works || s.procs[a.p].main == AtExit) then None else holder;
    if holder == Some(a.p) { assert s.vars == base; }
  }

  lemma LockKeeps(n: nat, s: State, a: Action, holder: Option<nat>, base: seq<int>)
    requires Inv(n, s, holder, base) && a.Main? && Step(BOTH, n, s, a).Some? && s.procs[a.p].main == AtLock
    ensures Inv(n, Step(BOTH, n, s, a).value, Some(a.p), base)
  {}

  lemma ThreadsKeep(n: nat, s: State, a: Action, holder: Option<nat>, base: seq<int>)
    requires Inv(n, s, holder, base) && a.Main? && Step(BOTH, n, s, a).Some? && !IsDeath(s, a)
    requires s.procs[a.p].main in {AtCreate1, AtCreate2, AtJoin1, AtJoin2}
    ensures Inv(n, Step(BOTH, n, s, a).value, holder, base)
  {}

  lemma MainKeeps(n: nat, s: State, a: Action, holder: Option<nat>, base: seq<int>) returns (holder': Option<nat>)
    requires Inv(n, s, holder, base) && a.Main? && Step(BOTH, n, s, a).Some? && !IsDeath(s, a)
    ensures Inv(n, Step(BOTH, n, s, a).value, holder', base)
  {
    if s.procs[a.p].main == AtLock {
      LockKeeps(n, s, a, holder, base);
      holder' := Some(a.p);
    } else if s.procs[a.p].main in {AtUnlock, AtExit} {
      holder' := LeavingKeeps(n, s, a, holder, base);
    } else {
      ThreadsKeep(n, s, a, holder, base);
      holder' := holder;
    }
  }

  lemma StoreKeeps(setup: Setup, n: nat, q: Proc, vars: seq<int>, base: seq<int>, isInc: bool)
    requires setup.mutex && |vars| == 3 && Alone(n, q, vars, base) && WorkerOf(q, isInc).pc.AtStore?
    ensures var o := WorkerStep(setup, n, q, vars, isInc).value;
            |o.1| == 3 && Alone(n, o.0, o.1, base) && o.0.undo == q.undo && o.0.main == q.main
  {}

  lemma WorkerKeeps(setup: Setup, n: nat, q: Proc, vars: seq<int>, base: seq<int>, isInc: bool)
    requires setup.mutex && |vars| == 3 && Alone(n, q, vars, base) && WorkerStep(setup, n, q, vars, isInc).Some?
    ensures var o := WorkerStep(setup, n, q, vars, isInc).value;
            |o.1| == 3 && Alone(n, o.0, o.1, base) && o.0.undo == q.undo && o.0.main == q.main
  {
    if WorkerOf(q, isInc).pc.AtStore? {
      StoreKeeps(setup, n, q, vars, base, isInc);
    }
  }

  lemma StepKeeps(n: nat, s: State, a: Action, holder: Option<nat>, base: seq<int>)
    returns (holder': Option<nat>, base': seq<int>)
    requires Inv(n, s, holder, base) && Step(BOTH, n, s, a).Some?
    ensures Inv(n, Step(BOTH, n, s, a).value, holder', base') && Rebased(s, a, base, base')
  {
    holder', base' := holder, base;
    if IsDeath(s, a) {
      holder', base' := DeathKeeps(n, s, a, holder, base);
    } else if a.Main? {
      holder' := MainKeeps(n, s, a, holder, base);
    } else {
      assert holder == Some(a.p);
      WorkerKeeps(BOTH, n, s.procs[a.p], s.vars, base, a.isInc);
    }
  }

  /** What all deaths of a run together have left behind in variable `v`. */
  function Lost(procs: nat, n: nat, actions: seq<Action>, v: nat): int
    requires Run(BOTH, procs, n, actions).Some?
  {
    if actions == [] then 0
    else
      var front := actions[..|actions| - 1];
      Lost(procs, n, front, v) + LostBy(Run(BOTH, procs, n, front).value, actions[|actions| - 1], v)
  }

  lemma InitKeeps(procs: nat, n: nat)
    ensures Inv(n, Init(procs), None, INITIAL)
  {}

  lemma {:induction false} RunsKeep(procs: nat, n: nat, actions: seq<Action>)
    returns (holder: Option<nat>, base: seq<int>)
    requires Run(BOTH, procs, n, actions).Some?
    ensures Inv(n, Run(BOTH, procs, n, actions).value, holder, base)
    ensures |base| == 3 && forall v: nat :: v < 3 ==> base[v] == INITIAL[v] + Lost(procs, n, actions, v)
  {
    if actions == [] {
      holder, base := None, INITIAL;
      InitKeeps(procs, n);
    } else {
      var front, a := actions[..|actions| - 1], actions[|actions| - 1];
      holder, base := RunsKeep(procs, n, front);
      holder, base := StepKeeps(n, Run(BOTH, procs, n, front).value, a, holder, base);
    }
  }

  // ----- Mutual exclusion

  /** No two different threads, of the same or of different processes, are inside an update. */
  predicate Exclusive(s: State) {
    forall p, q, i, j ::
      (&& 0 <= p < |s.procs| && 0 <= q < |s.procs|
       && InUpdate(WorkerOf(s.procs[p], i)) && InUpdate(WorkerOf(s.procs[q], j))) ==> p == q && i == j
  }

  /** At most one thread of the whole system is ever inside an update, failed creations and kills included. */
  lemma MutualExclusion(procs: nat, n: nat, actions: seq<Action>)
    requires Run(BOTH, procs, n, actions).Some?
    ensures Exclusive(Run(BOTH, procs, n, actions).value)
  {
    var holder, base := RunsKeep(procs, n, actions);
  }

  /** Every call to take the semaphore worked. */
  predicate LocksWorked(procs: nat, n: nat, actions: seq<Action>)
    requires Run(CODE, procs, n, actions).Some?
  {
    actions == [] ||
    (var front, a := actions[..|actions| - 1], actions[|actions| - 1];
     && LocksWorked(procs, n, front)
     && (a.Main? && Run(CODE, procs, n, front).value.procs[a.p].main == AtLock ==> a.works))
  }

  /** So all that is proved under `BOTH` holds of the runs of the code in which no such call failed. */
  lemma {:induction false} LocksWorkedIsBoth(procs: nat, n: nat, actions: seq<Action>)
    requires Run(CODE, procs, n, actions).Some? && LocksWorked(procs, n, actions)
    ensures Run(BOTH, procs, n, actions) == Run(CODE, procs, n, actions)
  {
    if actions != [] {
      LocksWorkedIsBoth(procs, n, actions[..|actions| - 1]);
    }
  }

  /** And conversely. */
  lemma {:induction false} BothIsCode(procs: nat, n: nat, actions: seq<Action>)
    requires Run(BOTH, procs, n, actions).Some?
    ensures Run(CODE, procs, n, actions) == Run(BOTH, procs, n, actions) && LocksWorked(procs, n, actions)
  {
    if actions != [] {
      BothIsCode(procs, n, actions[..|actions| - 1]);
    }
  }

  lemma RunMore(setup: Setup, procs: nat, n: nat, actions: seq<Action>, a: Action)
    requires Run(setup, procs, n, actions).Some?
    ensures Run(setup, procs, n, actions + [a]) == Step(setup, n, Run(setup, procs, n, actions).value, a)
  {
    assert (actions + [a])[..|actions|] == actions;
  }

  /** The semaphore keeps nobody out. */
  predicate Unguarded(setup: Setup) {
    !setup.semaphore || setup.lockFails
  }

  /** A process that has created its first worker and not yet its second. */
  function Begun(undo: int, inc: Worker): Proc {
    Proc(AtCreate2, undo, None, inc, Worker(Absent, 0))
  }

  /** A process gets as far as its first worker's mutex. */
  lemma StartProcess(setup: Setup, procs: nat, n: nat, actions: seq<Action>, p: nat) returns (more: seq<Action>)
    requires Run(setup, procs, n, actions).Some? && 0 < n
    requires var s := Run(setup, procs, n, actions).value;
             p < |s.procs| && s.procs[p] == Fresh() && (s.sem > 0 || Unguarded(setup))
    ensures var s := Run(setup, procs, n, actions).value;
            var held := if Unguarded(setup) then 0 else 1;
            Run(setup, procs, n, more) ==
            Some(s.(sem := s.sem - held, procs := s.procs[p := Begun(held, Worker(AtMutex, 0))]))
  {
    var s := Run(setup, procs, n, actions).value;
    RunMore(setup, procs, n, actions, Main(p, !Unguarded(setup)));
    more := actions + [Main(p, !Unguarded(setup))];
    var s1 := Run(setup, procs, n, more).value;
    RunMore(setup, procs, n, more, Main(p, true));
    more := more + [Main(p, true)];
    var s2 := Run(setup, procs, n, more).value;
    assert s2.procs == s1.procs[p := s2.procs[p]] == s.procs[p := s2.procs[p]];
  }

  lemma WithoutMutex(setup: Setup, n: nat) returns (actions: seq<Action>)
    requires !setup.mutex && 0 < n
    ensures Run(setup, 1, n, actions).Some? && !Exclusive(Run(setup, 1, n, actions).value)
  {
    actions := StartProcess(setup, 1, n, [], 0);
    RunMore(setup, 1, n, actions, Main(0, true));
    actions := actions + [Main(0, true)];
    RunMore(setup, 1, n, actions, Work(0, true));
    actions := actions + [Work(0, true)];
    RunMore(setup, 1, n, actions, Work(0, false));
    actions := actions + [Work(0, false)];
    var q := Run(setup, 1, n, actions).value.procs[0];
    assert InUpdate(WorkerOf(q, true)) && InUpdate(WorkerOf(q, false));
  }

  lemma WithoutSemaphore(setup: Setup, n: nat) returns (actions: seq<Action>)
    requires Unguarded(setup) && 0 < n
    ensures Run(setup, 2, n, actions).Some? && !Exclusive(Run(setup, 2, n, actions).value)
  {
    actions := StartProcess(setup, 2, n, [], 0);
    actions := StartProcess(setup, 2, n, actions, 1);
    RunMore(setup, 2, n, actions, Work(0, true));
    actions := actions + [Work(0, true)];
    RunMore(setup, 2, n, actions, Work(1, true));
    actions := actions + [Work(1, true)];
    var s := Run(setup, 2, n, actions).value;
    assert InUpdate(WorkerOf(s.procs[0], true)) && InUpdate(WorkerOf(s.procs[1], true));
  }

  /**
    Neither lock can be spared, and the unchecked result of `semop` matters: every run is exclusive if and only if
    both locks are taken and taking the semaphore cannot fail.
   */
  lemma BothLocksNeeded(setup: Setup, n: nat)
    requires 0 < n
    ensures (forall procs, actions :: Run(setup, procs, n, actions).Some? ==>
               Exclusive(Run(setup, procs, n, actions).value)) <==> setup == BOTH
  {
    if setup == BOTH {
      forall procs, actions | Run(setup, procs, n, actions).Some?
        ensures Exclusive(Run(setup, procs, n, actions).value)
      {
        MutualExclusion(procs, n, actions);
      }
    } else if !setup.mutex {
      var actions := WithoutMutex(setup, n);
    } else {
      var actions := WithoutSemaphore(setup, n);
    }
  }
}
