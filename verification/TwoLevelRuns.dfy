/**
  Every run of the code with two levels of locking, whatever calls fail: how long it takes, what becomes of the
  semaphore and its pending undo adjustments, and who can move.

  What holds here is proved process by process, because a failed call to take the semaphore lets several in.
 */
module TwoLevelRuns {
  import opened Options
  import opened TwoLevelLock

  // ----- Process by process

  predicate AllGone(s: State) {
    forall p :: 0 <= p < |s.procs| ==> s.procs[p].main == Gone
  }

  /** What holds of a process by itself, with the semaphore or after a failed call to take it. */
  predicate Local(n: nat, q: Proc) {
    match q.main
    case AtLock => q == Fresh()
    case Gone => q == Ended()
    case _ =>
      && MainSound(q) && MutexSound(q) && WorkerLocal(n, q.inc, 3) && WorkerLocal(n, q.dec, 3)
      && (if q.main == AtExit then -1 else 0) <= q.undo <= 1
  }

  predicate AllLocal(n: nat, s: State) {
    |s.vars| == 3 && forall p :: 0 <= p < |s.procs| ==> Local(n, s.procs[p])
  }

  lemma WorkerStaysLocal(n: nat, q: Proc, vars: seq<int>, isInc: bool)
    requires |vars| == 3 && Local(n, q) && WorkerStep(CODE, n, q, vars, isInc).Some?
    ensures var o := WorkerStep(CODE, n, q, vars, isInc).value;
            |o.1| == 3 && Local(n, o.0) && o.0.undo == q.undo && o.0.main == q.main
  {}

  lemma LockStaysLocal(n: nat, s: State, a: Action)
    requires AllLocal(n, s) && a.Main? && Step(CODE, n, s, a).Some?
    requires s.procs[a.p].main in {AtLock, AtUnlock, AtExit}
    ensures Local(n, Step(CODE, n, s, a).value.procs[a.p])
  {}

  lemma ThreadsStayLocal(n: nat, s: State, a: Action)
    requires AllLocal(n, s) && a.Main? && Step(CODE, n, s, a).Some?
    requires s.procs[a.p].main !in {AtLock, AtUnlock, AtExit}
    ensures Local(n, Step(CODE, n, s, a).value.procs[a.p])
  {}

  lemma OneProcChanges(n: nat, s: State, a: Action)
    requires Step(CODE, n, s, a).Some?
    ensures var s' := Step(CODE, n, s, a).value;
            |s'.procs| == |s.procs| && s'.procs == s.procs[a.p := s'.procs[a.p]] && (!a.Work? ==> s'.vars == s.vars)
  {}

  lemma StepStaysLocal(n: nat, s: State, a: Action)
    requires AllLocal(n, s) && Step(CODE, n, s, a).Some?
    ensures AllLocal(n, Step(CODE, n, s, a).value)
  {
    OneProcChanges(n, s, a);
    if a.Main? {
      if s.procs[a.p].main in {AtLock, AtUnlock, AtExit} {
        LockStaysLocal(n, s, a);
      } else {
        ThreadsStayLocal(n, s, a);
      }
    } else if a.Work? {
      WorkerStaysLocal(n, s.procs[a.p], s.vars, a.isInc);
    }
  }

  lemma {:induction false} RunsAreLocal(procs: nat, n: nat, actions: seq<Action>)
    requires Run(CODE, procs, n, actions).Some?
    ensures var s := Run(CODE, procs, n, actions).value; AllLocal(n, s) && |s.procs| == procs
  {
    if actions != [] {
      var front, a := actions[..|actions| - 1], actions[|actions| - 1];
      RunsAreLocal(procs, n, front);
      StepStaysLocal(n, Run(CODE, procs, n, front).value, a);
      OneProcChanges(n, Run(CODE, procs, n, front).value, a);
    }
  }

  // ----- Every run ends

  /** Steps a worker can still take. */
  function WorkerRank(n: nat, w: Worker): int {
    8 * (n - w.done) - match w.pc
                       case AtLoad(v) => 1 + 2 * v
                       case AtStore(v, _) => 2 + 2 * v
                       case AtRelease => 7
                       case _ => 0
  }

  function MainRank(main: MainPc): nat {
    match main
    case AtLock => 7 case AtCreate1 => 6 case AtCreate2 => 5 case AtJoin1 => 4
    case AtJoin2 => 3 case AtUnlock => 2 case AtExit => 1 case Gone => 0
  }

  /** Steps a process can still take. */
  function ProcRank(n: nat, q: Proc): int {
    match q.main
    case Gone => 0
    case AtExit => 1
    case _ => MainRank(q.main) + WorkerRank(n, q.inc) + WorkerRank(n, q.dec)
  }

  function TotalRank(n: nat, procs: seq<Proc>): int {
    if procs == [] then 0 else ProcRank(n, procs[0]) + TotalRank(n, procs[1..])
  }

  lemma {:induction false} TotalRankUpdate(n: nat, procs: seq<Proc>, p: nat, q: Proc)
    requires p < |procs|
    ensures TotalRank(n, procs[p := q]) == TotalRank(n, procs) - ProcRank(n, procs[p]) + ProcRank(n, q)
  {
    if p == 0 {
      assert procs[p := q][1..] == procs[1..];
    } else {
      assert procs[p := q][1..] == procs[1..][p - 1 := q];
      TotalRankUpdate(n, procs[1..], p - 1, q);
    }
  }

  lemma WorkerDescends(n: nat, q: Proc, vars: seq<int>, isInc: bool)
    requires |vars| == 3 && Local(n, q) && WorkerStep(CODE, n, q, vars, isInc).Some?
    ensures ProcRank(n, WorkerStep(CODE, n, q, vars, isInc).value.0) < ProcRank(n, q)
  {}

  lemma ProcRankPositive(n: nat, q: Proc)
    requires Local(n, q)
    ensures ProcRank(n, q) >= 0
    ensures q.main != Gone ==> ProcRank(n, q) > 0
  {}

  lemma MainDescends(n: nat, s: State, a: Action)
    requires AllLocal(n, s) && a.Main? && Step(CODE, n, s, a).Some?
    ensures ProcRank(n, Step(CODE, n, s, a).value.procs[a.p]) < ProcRank(n, s.procs[a.p])
  {
    ProcRankPositive(n, s.procs[a.p]);
  }

  /** Any step, of a main thread, of a worker, or of death, brings its process closer to its end. */
  lemma ProcDescends(n: nat, s: State, a: Action)
    requires AllLocal(n, s) && Step(CODE, n, s, a).Some?
    ensures ProcRank(n, Step(CODE, n, s, a).value.procs[a.p]) < ProcRank(n, s.procs[a.p])
  {
    if a.Main? {
      MainDescends(n, s, a);
    } else if a.Kill? {
      ProcRankPositive(n, s.procs[a.p]);
    } else {
      WorkerDescends(n, s.procs[a.p], s.vars, a.isInc);
    }
  }

  lemma {:induction false} InitialRank(n: nat, procs: nat)
    ensures TotalRank(n, Init(procs).procs) == procs * (16 * n + 7)
  {
    if procs > 0 {
      assert Init(procs).procs[1..] == Init(procs - 1).procs;
      InitialRank(n, procs - 1);
      assert procs * (16 * n + 7) == (procs - 1) * (16 * n + 7) + (16 * n + 7);
    }
  }

  lemma {:induction false} RankNonNegative(n: nat, procs: seq<Proc>)
    requires forall p :: 0 <= p < |procs| ==> Local(n, procs[p])
    ensures TotalRank(n, procs) >= 0
  {
    if procs != [] {
      ProcRankPositive(n, procs[0]);
      RankNonNegative(n, procs[1..]);
    }
  }

  lemma {:induction false} RunsDescend(procs: nat, n: nat, actions: seq<Action>)
    requires Run(CODE, procs, n, actions).Some?
    ensures |actions| + TotalRank(n, Run(CODE, procs, n, actions).value.procs) <= procs * (16 * n + 7)
  {
    if actions == [] {
      InitialRank(n, procs);
    } else {
      var front, a := actions[..|actions| - 1], actions[|actions| - 1];
      RunsDescend(procs, n, front);
      RunsAreLocal(procs, n, front);
      var s := Run(CODE, procs, n, front).value;
      OneProcChanges(n, s, a);
      ProcDescends(n, s, a);
      TotalRankUpdate(n, s.procs, a.p, Step(CODE, n, s, a).value.procs[a.p]);
    }
  }

  /** Every run of the code ends, after at most (16n + 7) steps for each process, whatever calls fail. */
  lemma RunsEnd(procs: nat, n: nat, actions: seq<Action>)
    requires Run(CODE, procs, n, actions).Some?
    ensures |actions| <= procs * (16 * n + 7)
  {
    RunsDescend(procs, n, actions);
    RunsAreLocal(procs, n, actions);
    RankNonNegative(n, Run(CODE, procs, n, actions).value.procs);
  }

  // ----- SEM_UNDO

  function TotalUndo(procs: seq<Proc>): int {
    if procs == [] then 0 else procs[0].undo + TotalUndo(procs[1..])
  }

  lemma {:induction false} TotalUndoUpdate(procs: seq<Proc>, p: nat, q: Proc)
    requires p < |procs|
    ensures TotalUndo(procs[p := q]) == TotalUndo(procs) - procs[p].undo + q.undo
  {
    if p == 0 {
      assert procs[p := q][1..] == procs[1..];
    } else {
      assert procs[p := q][1..] == procs[1..][p - 1 := q];
      TotalUndoUpdate(procs[1..], p - 1, q);
    }
  }

  lemma {:induction false} NoUndo(procs: seq<Proc>)
    requires forall p :: 0 <= p < |procs| ==> procs[p].undo == 0
    ensures TotalUndo(procs) == 0
  {
    if procs != [] { NoUndo(procs[1..]); }
  }

  /** The process of `a` ends, and its undo adjustment would make the semaphore negative. */
  predicate Clamps(s: State, a: Action) {
    && a.p < |s.procs| && s.sem + s.procs[a.p].undo < 0
    && (IsDeath(s, a) || (a.Main? && s.procs[a.p].main == AtExit))
  }

  /** How often that has happened in a run. */
  function Clamped(procs: nat, n: nat, actions: seq<Action>): nat
    requires Run(CODE, procs, n, actions).Some?
  {
    if actions == [] then 0
    else
      var front, a := actions[..|actions| - 1], actions[|actions| - 1];
      Clamped(procs, n, front) + if Clamps(Run(CODE, procs, n, front).value, a) then 1 else 0
  }

  lemma StepConserves(n: nat, s: State, a: Action)
    requires AllLocal(n, s) && s.sem >= 0 && Step(CODE, n, s, a).Some?
    ensures var s' := Step(CODE, n, s, a).value;
            && s'.sem >= 0
            && s'.sem + TotalUndo(s'.procs) == s.sem + TotalUndo(s.procs) + if Clamps(s, a) then 1 else 0
  {
    OneProcChanges(n, s, a);
    TotalUndoUpdate(s.procs, a.p, Step(CODE, n, s, a).value.procs[a.p]);
    if a.Work? { WorkerStaysLocal(n, s.procs[a.p], s.vars, a.isInc); }
  }

  /**
    Conservation, in every run of the code: the semaphore's value and the pending undo adjustments add up to one,
    and one more for each exit at which the kernel had to keep the value from becoming negative.
   */
  lemma {:induction false} UndoConserved(procs: nat, n: nat, actions: seq<Action>)
    requires Run(CODE, procs, n, actions).Some?
    ensures var s := Run(CODE, procs, n, actions).value;
            s.sem >= 0 && s.sem + TotalUndo(s.procs) == 1 + Clamped(procs, n, actions)
  {
    if actions == [] {
      NoUndo(Init(procs).procs);
    } else {
      var front, a := actions[..|actions| - 1], actions[|actions| - 1];
      UndoConserved(procs, n, front);
      RunsAreLocal(procs, n, front);
      StepConserves(n, Run(CODE, procs, n, front).value, a);
    }
  }

  lemma {:induction false} OneUndo(procs: seq<Proc>, holder: Option<nat>)
    requires forall p :: 0 <= p < |procs| && holder != Some(p) ==> procs[p].undo == 0
    requires holder.Some? ==> holder.value < |procs|
    ensures TotalUndo(procs) == if holder.None? then 0 else procs[holder.value].undo
  {
    if procs != [] {
      OneUndo(procs[1..], if holder.None? || holder.value == 0 then None else Some(holder.value - 1));
    }
  }

  /** As long as taking the semaphore works that never happens, wherever processes exit or die. */
  lemma NeverClampedWhenLocksWork(procs: nat, n: nat, actions: seq<Action>)
    requires Run(CODE, procs, n, actions).Some? && LocksWorked(procs, n, actions)
    ensures Clamped(procs, n, actions) == 0
    ensures var s := Run(CODE, procs, n, actions).value; s.sem + TotalUndo(s.procs) == 1
  {
    LocksWorkedIsBoth(procs, n, actions);
    var holder, base := RunsKeep(procs, n, actions);
    OneUndo(Run(BOTH, procs, n, actions).value.procs, holder);
    UndoConserved(procs, n, actions);
  }

  lemma TotalOfTwo(procs: seq<Proc>, p: nat)
    requires p < |procs| <= 2
    ensures TotalUndo(procs) == procs[p].undo + if |procs| == 2 then procs[1 - p].undo else 0
  {
    var rest := procs[1..];
    assert TotalUndo(procs) == procs[0].undo + TotalUndo(rest);
    if |procs| == 2 { assert rest[0] == procs[1] && rest[1..] == []; }
  }

  lemma TwoNeverClamp(n: nat, s: State, a: Action)
    requires AllLocal(n, s) && |s.procs| <= 2 && s.sem >= 0 && s.sem + TotalUndo(s.procs) == 1
    ensures !Clamps(s, a)
  {
    if a.p < |s.procs| {
      TotalOfTwo(s.procs, a.p);
      if |s.procs| == 2 { assert Local(n, s.procs[1 - a.p]); }
    }
  }

  lemma {:induction false} TwoConserve(procs: nat, n: nat, actions: seq<Action>)
    requires procs <= 2 && Run(CODE, procs, n, actions).Some?
    ensures var s := Run(CODE, procs, n, actions).value; s.sem + TotalUndo(s.procs) == 1
    ensures Clamped(procs, n, actions) == 0
  {
    UndoConserved(procs, n, actions);
    if actions != [] {
      var front, a := actions[..|actions| - 1], actions[|actions| - 1];
      TwoConserve(procs, n, front);
      UndoConserved(procs, n, front);
      RunsAreLocal(procs, n, front);
      TwoNeverClamp(n, Run(CODE, procs, n, front).value, a);
    }
  }

  // ----- Progress

  /** A step that does not wait for anything to fail. */
  predicate Willing(a: Action) {
    !a.Kill? && (a.Main? ==> a.works)
  }

  /** Nobody can take such a step. */
  ghost predicate Stuck(n: nat, s: State) {
    forall a: Action :: Willing(a) ==> Step(CODE, n, s, a).None?
  }

  /** The next step of a process past its lock call: of the worker in its update, of a waiting one, or its own. */
  function NextStep(p: nat, q: Proc): Action {
    if q.mutex.Some? then Work(p, q.mutex.value == 0)
    else if q.inc.pc == AtMutex then Work(p, true)
    else if q.dec.pc == AtMutex then Work(p, false)
    else Main(p, true)
  }

  lemma NextStepMoves(n: nat, s: State, p: nat)
    requires AllLocal(n, s) && p < |s.procs| && s.procs[p].main !in {AtLock, Gone}
    ensures Step(CODE, n, s, NextStep(p, s.procs[p])).Some? && Willing(NextStep(p, s.procs[p]))
  {}

  /**
    The lock is always obtainable again, whatever has failed and wherever children have exited or died: nobody can
    move without a failure if and only if every process is gone.
   */
  lemma OnlyStuckWhenDone(procs: nat, n: nat, actions: seq<Action>)
    requires Run(CODE, procs, n, actions).Some?
    ensures Stuck(n, Run(CODE, procs, n, actions).value) <==> AllGone(Run(CODE, procs, n, actions).value)
  {
    RunsAreLocal(procs, n, actions);
    UndoConserved(procs, n, actions);
    var s := Run(CODE, procs, n, actions).value;
    if p: nat :| p < |s.procs| && s.procs[p].main !in {AtLock, Gone} {
      NextStepMoves(n, s, p);
    } else if p: nat :| p < |s.procs| && s.procs[p].main == AtLock {
      NoUndo(s.procs);
      assert Step(CODE, n, s, Main(p, true)).Some?;
    }
  }

  // ----- One process at a time

  /** The order of a process's own steps, from its first creation to its unlock. */
  predicate Inside(main: MainPc) {
    main in {AtCreate1, AtCreate2, AtJoin1, AtJoin2}
  }

  /** What one process does while nobody else moves: it stays alone with the variables. */
  lemma NextStepAlone(n: nat, s: State, p: nat, base: seq<int>)
    requires AllLocal(n, s) && p < |s.procs| && Inside(s.procs[p].main) && Alone(n, s.procs[p], s.vars, base)
    ensures var a := NextStep(p, s.procs[p]);
            && Step(CODE, n, s, a).Some? && !IsDeath(s, a)
            && var s' := Step(CODE, n, s, a).value;
               && s'.sem == s.sem && s'.procs == s.procs[p := s'.procs[p]]
               && s'.procs[p].undo == s.procs[p].undo && Alone(n, s'.procs[p], s'.vars, base)
               && MainRank(s'.procs[p].main) + 1 >= MainRank(s.procs[p].main) >= MainRank(s'.procs[p].main)
               && (s'.procs[p].main == AtJoin1 != s.procs[p].main ==>
                     s'.procs[p].inc == Worker(Finished, n) && s'.procs[p].dec == Created(n))
  {
    var a := NextStep(p, s.procs[p]);
    NextStepMoves(n, s, p);
    OneProcChanges(n, s, a);
    if a.Work? { WorkerKeeps(CODE, n, s.procs[p], s.vars, base, a.isInc); }
  }

  // ----- Runs in which nobody dies

  /** Processes die only while their main threads are at places in `places`. */
  predicate DeathsAt(setup: Setup, procs: nat, n: nat, actions: seq<Action>, places: set<MainPc>)
    requires Run(setup, procs, n, actions).Some?
  {
    actions == [] ||
    (var front, a := actions[..|actions| - 1], actions[|actions| - 1];
     var s := Run(setup, procs, n, front).value;
     DeathsAt(setup, procs, n, front, places) && (IsDeath(s, a) ==> s.procs[a.p].main in places))
  }

  lemma {:induction false} MorePlaces(
      setup: Setup, procs: nat, n: nat, actions: seq<Action>, fewer: set<MainPc>, places: set<MainPc>)
    requires Run(setup, procs, n, actions).Some? && DeathsAt(setup, procs, n, actions, fewer) && fewer <= places
    ensures DeathsAt(setup, procs, n, actions, places)
  {
    if actions != [] { MorePlaces(setup, procs, n, actions[..|actions| - 1], fewer, places); }
  }

  /** The code, with calls to take the semaphore that may fail or may not. */
  function Locked(lockFails: bool): Setup {
    Setup(true, true, lockFails)
  }

  predicate Reaches(lockFails: bool, procs: nat, n: nat, actions: seq<Action>, s: State) {
    && Run(Locked(lockFails), procs, n, actions) == Some(s)
    && DeathsAt(Locked(lockFails), procs, n, actions, {})
    && AllLocal(n, s) && |s.procs| == procs
  }

  lemma ReachesInit(lockFails: bool, procs: nat, n: nat)
    ensures Reaches(lockFails, procs, n, [], Init(procs))
  {}

  lemma SameStep(lockFails: bool, n: nat, s: State, a: Action)
    requires Step(Locked(lockFails), n, s, a).Some?
    ensures Step(CODE, n, s, a) == Step(Locked(lockFails), n, s, a)
  {}

  lemma ReachesMore(lockFails: bool, procs: nat, n: nat, actions: seq<Action>, s: State, a: Action)
    requires Reaches(lockFails, procs, n, actions, s) && Step(Locked(lockFails), n, s, a).Some? && !IsDeath(s, a)
    ensures Reaches(lockFails, procs, n, actions + [a], Step(Locked(lockFails), n, s, a).value)
  {
    assert (actions + [a])[..|actions|] == actions;
    SameStep(lockFails, n, s, a);
    StepStaysLocal(n, s, a);
    OneProcChanges(n, s, a);
  }

  /** Process `p` has gone from `s` to `s'` on its own; only it and the variables have changed. */
  predicate OnlyMoved(s: State, s': State, p: nat) {
    p < |s.procs| == |s'.procs| && s'.procs == s.procs[p := s'.procs[p]]
  }

  lemma OneStep(lockFails: bool, procs: nat, n: nat, actions: seq<Action>, s: State, a: Action)
    returns (more: seq<Action>, s': State)
    requires Reaches(lockFails, procs, n, actions, s) && Step(Locked(lockFails), n, s, a).Some? && !IsDeath(s, a)
    ensures Reaches(lockFails, procs, n, more, s') && s' == Step(Locked(lockFails), n, s, a).value
    ensures OnlyMoved(s, s', a.p)
  {
    ReachesMore(lockFails, procs, n, actions, s, a);
    SameStep(lockFails, n, s, a);
    OneProcChanges(n, s, a);
    more, s' := actions + [a], Step(Locked(lockFails), n, s, a).value;
  }

  /** One step of a process that is alone with the variables. */
  lemma AdvanceOne(lockFails: bool, procs: nat, n: nat, actions: seq<Action>, s: State, p: nat, base: seq<int>)
    returns (more: seq<Action>, s': State)
    requires Reaches(lockFails, procs, n, actions, s) && p < procs && Alone(n, s.procs[p], s.vars, base)
    requires Inside(s.procs[p].main)
    ensures Reaches(lockFails, procs, n, more, s') && OnlyMoved(s, s', p)
    ensures s'.sem == s.sem && s'.procs[p].undo == s.procs[p].undo && Alone(n, s'.procs[p], s'.vars, base)
    ensures MainRank(s'.procs[p].main) + 1 >= MainRank(s.procs[p].main) >= MainRank(s'.procs[p].main)
    ensures s'.procs[p].main == AtJoin1 != s.procs[p].main ==>
              s'.procs[p].inc == Worker(Finished, n) && s'.procs[p].dec == Created(n)
    ensures 0 <= ProcRank(n, s'.procs[p]) < ProcRank(n, s.procs[p])
  {
    var a := NextStep(p, s.procs[p]);
    NextStepAlone(n, s, p, base);
    ProcDescends(n, s, a);
    assert Step(Locked(lockFails), n, s, a) == Step(CODE, n, s, a);
    more, s' := OneStep(lockFails, procs, n, actions, s, a);
    ProcRankPositive(n, s'.procs[p]);
  }

  /** One process alone goes on to its joins, or to its unlock. */
  lemma {:induction false} Advance(
      lockFails: bool, procs: nat, n: nat, actions: seq<Action>, s: State, p: nat, place: MainPc, base: seq<int>)
    returns (more: seq<Action>, s': State)
    requires Reaches(lockFails, procs, n, actions, s) && p < procs && Alone(n, s.procs[p], s.vars, base)
    requires Inside(s.procs[p].main) && place in {AtJoin1, AtUnlock} && MainRank(s.procs[p].main) > MainRank(place)
    ensures Reaches(lockFails, procs, n, more, s') && OnlyMoved(s, s', p) && s'.procs[p].main == place
    ensures s'.sem == s.sem && s'.procs[p].undo == s.procs[p].undo && Alone(n, s'.procs[p], s'.vars, base)
    ensures place == AtJoin1 ==> s'.procs[p].inc == Worker(Finished, n) && s'.procs[p].dec == Created(n)
    decreases ProcRank(n, s.procs[p])
  {
    more, s' := AdvanceOne(lockFails, procs, n, actions, s, p, base);
    if s'.procs[p].main != place {
      more, s' := Advance(lockFails, procs, n, more, s', p, place, base);
    }
  }

  /** From its unlock a process goes to its end. */
  lemma LeaveQuietly(lockFails: bool, procs: nat, n: nat, actions: seq<Action>, s: State, p: nat)
    returns (more: seq<Action>, s': State)
    requires Reaches(lockFails, procs, n, actions, s) && p < procs && s.procs[p].main == AtUnlock
    ensures Reaches(lockFails, procs, n, more, s') && OnlyMoved(s, s', p)
    ensures s'.procs[p] == Ended() && s'.vars == s.vars
  {
    var s1: State;
    more, s1 := OneStep(lockFails, procs, n, actions, s, Main(p, true));
    more, s' := OneStep(lockFails, procs, n, more, s1, Main(p, true));
    assert s1.procs[p].main == AtExit;
  }

  /** A process that is alone with the variables goes to its end, and leaves them as it found them. */
  lemma GoHome(lockFails: bool, procs: nat, n: nat, actions: seq<Action>, s: State, p: nat, base: seq<int>)
    returns (more: seq<Action>, s': State)
    requires Reaches(lockFails, procs, n, actions, s) && p < procs && Alone(n, s.procs[p], s.vars, base)
    requires Inside(s.procs[p].main)
    ensures Reaches(lockFails, procs, n, more, s') && OnlyMoved(s, s', p)
    ensures s'.procs[p] == Ended() && s'.vars == base
  {
    more, s' := Advance(lockFails, procs, n, actions, s, p, AtUnlock, base);
    assert s'.vars == base;
    more, s' := LeaveQuietly(lockFails, procs, n, more, s', p);
  }

  // ----- Three processes and more

  /** A child whose call to take the semaphore failed gives it back all the same: now two may have it. */
  lemma TwoPermits(procs: nat, n: nat) returns (actions: seq<Action>, s: State)
    requires 2 < procs
    ensures Reaches(true, procs, n, actions, s) && s.sem == 2 && s.procs[0].main == AtExit && s.procs[0].undo == -1
    ensures forall p :: 0 < p < procs ==> s.procs[p] == Fresh()
  {
    ReachesInit(true, procs, n);
    actions, s := OneStep(true, procs, n, [], Init(procs), Main(0, false));
    actions, s := Advance(true, procs, n, actions, s, 0, AtUnlock, INITIAL);
    actions, s := OneStep(true, procs, n, actions, s, Main(0, true));
  }

  /** Then two others take it, and the first child's exit finds nothing to undo. */
  lemma NotConserved(procs: nat, n: nat) returns (actions: seq<Action>)
    requires 2 < procs
    ensures Run(CODE, procs, n, actions).Some?
    ensures var s := Run(CODE, procs, n, actions).value; s.sem + TotalUndo(s.procs) > 1
  {
    var s: State;
    actions, s := TwoPermits(procs, n);
    actions, s := OneStep(true, procs, n, actions, s, Main(1, true));
    actions, s := OneStep(true, procs, n, actions, s, Main(2, true));
    UndoConserved(procs, n, actions);
    StepConserves(n, s, Main(0, true));
    actions, s := OneStep(true, procs, n, actions, s, Main(0, true));
  }

  ghost predicate AlwaysConserved(procs: nat, n: nat) {
    forall actions :: Run(CODE, procs, n, actions).Some? ==>
                        var s := Run(CODE, procs, n, actions).value; s.sem + TotalUndo(s.procs) == 1
  }

  /** With calls to take the semaphore that may fail, exact conservation holds of two children, and of no more. */
  lemma ConservedExactlyWhen(procs: nat, n: nat)
    ensures AlwaysConserved(procs, n) <==> procs <= 2
  {
    if procs <= 2 {
      forall actions | Run(CODE, procs, n, actions).Some?
        ensures var s := Run(CODE, procs, n, actions).value; s.sem + TotalUndo(s.procs) == 1
      {
        TwoConserve(procs, n, actions);
      }
    } else {
      var actions := NotConserved(procs, n);
    }
  }
}
