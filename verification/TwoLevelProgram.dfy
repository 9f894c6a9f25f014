/** The program with two levels of locking: its semaphore, shared memory and processes updated in place. */
module TwoLevelProgram {
  import opened Options
  import opened TwoLevelLock
  import opened TwoLevelRuns
  import opened TwoLevelValues

  class Program {
    const n: nat
    const count: nat
    var sem: int
    var vars: seq<int>
    var procs: seq<Proc>
    ghost var actions: seq<Action>

    function Snapshot(): State
      reads this
    {
      State(sem, vars, procs)
    }

    ghost predicate Valid()
      reads this
    {
      Run(CODE, count, n, actions) == Some(Snapshot())
    }

    constructor (count: nat, n: nat)
      ensures Valid() && actions == [] && this.count == count && this.n == n
    {
      this.n, this.count := n, count;
      sem, vars := 1, [10, 12, 14];
      procs := seq(count, _ => Fresh());
      actions := [];
      new;
      assert procs == Init(count).procs;
    }

    /** Records that `a` led from `before` to the present state. */
    ghost method Note(before: State, a: Action)
      requires Run(CODE, count, n, actions) == Some(before) && Step(CODE, n, before, a) == Some(Snapshot())
      modifies this`actions
      ensures Valid() && actions == old(actions) + [a]
    {
      RunMore(CODE, count, n, actions, a);
      actions := actions + [a];
    }

    /** `Semaphore::sem_lock` by process `p`, as far as it gets without blocking; a failure is only printed. */
    method SemLock(p: nat, works: bool) returns (passed: bool)
      requires p < |procs|
      modifies this`sem, this`procs
      ensures passed <==> old(sem) > 0 || !works
      ensures if works && passed
              then sem == old(sem) - 1 && procs == old(procs)[p := old(procs)[p].(undo := old(procs)[p].undo + 1)]
              else sem == old(sem) && procs == old(procs)
    {
      if !works { return true; }
      passed := sem > 0;
      if passed {
        sem := sem - 1;
        procs := procs[p := procs[p].(undo := procs[p].undo + 1)];
      }
    }

    /** `Semaphore::sem_unlock` by process `p`. */
    method SemUnlock(p: nat, works: bool)
      requires p < |procs|
      modifies this`sem, this`procs
      ensures if works
              then sem == old(sem) + 1 && procs == old(procs)[p := old(procs)[p].(undo := old(procs)[p].undo - 1)]
              else sem == old(sem) && procs == old(procs)
    {
      if works {
        sem := sem + 1;
        procs := procs[p := procs[p].(undo := procs[p].undo - 1)];
      }
    }

    /** `exit` or a fatal signal: the threads are gone and the kernel undoes what the process did to the semaphore. */
    method Exit(p: nat)
      requires p < |procs|
      modifies this`sem, this`procs
      ensures State(sem, vars, procs) == Die(old(Snapshot()), p)
    {
      sem := if sem + procs[p].undo < 0 then 0 else sem + procs[p].undo;
      procs := procs[p := Proc(Gone, 0, None, Worker(Absent, 0), Worker(Absent, 0))];
    }

    method At(p: nat, main: MainPc)
      requires p < |procs|
      modifies this`procs
      ensures procs == old(procs)[p := old(procs)[p].(main := main)]
    {
      procs := procs[p := procs[p].(main := main)];
    }

    /** A child's main thread between its two semaphore calls: the creations and the joins. */
    method CreateOrJoin(p: nat, works: bool) returns (ran: bool)
      requires p < |procs| && procs[p].main in {AtCreate1, AtCreate2, AtJoin1, AtJoin2}
      modifies this`sem, this`procs
      ensures ran <==> MainStep(CODE, n, old(Snapshot()), p, works).Some?
      ensures Snapshot() == if ran then MainStep(CODE, n, old(Snapshot()), p, works).value else old(Snapshot())
    {
      ran := true;
      match procs[p].main {
        case AtJoin1 =>
          if procs[p].inc.pc != Finished { return false; }
          At(p, AtJoin2);
        case AtJoin2 =>
          if procs[p].dec.pc != Finished { return false; }
          At(p, AtUnlock);
        case AtCreate1 =>
          if !works {
            Exit(p);
          } else {
            procs := procs[p := procs[p].(main := AtCreate2, inc := Created(n))];
          }
        case AtCreate2 =>
          if !works {
            Exit(p);
          } else {
            procs := procs[p := procs[p].(main := AtJoin1, dec := Created(n))];
          }
      }
    }

    /** The child's main thread runs up to its next library call. */
    method MainTurn(p: nat, works: bool) returns (ran: bool)
      requires Valid() && p < |procs|
      modifies this
      ensures Valid()
      ensures ran <==> Step(CODE, n, old(Snapshot()), Main(p, works)).Some?
      ensures if ran then actions == old(actions) + [Main(p, works)]
              else actions == old(actions) && Snapshot() == old(Snapshot())
    {
      ran := true;
      match procs[p].main {
        case AtLock =>
          ran := SemLock(p, works);
          if !ran { return; }
          At(p, AtCreate1);
        case AtUnlock =>
          SemUnlock(p, works);
          At(p, AtExit);
        case AtExit => Exit(p);
        case Gone => return false;
        case _ =>
          ran := CreateOrJoin(p, works);
          if !ran { return; }
      }
      assert procs == old(procs)[p := procs[p]];
      Note(old(Snapshot()), Main(p, works));
    }

    /** A signal ends process `p`. */
    method Killed(p: nat) returns (ran: bool)
      requires Valid() && p < |procs|
      modifies this
      ensures Valid()
      ensures ran <==> Step(CODE, n, old(Snapshot()), Kill(p)).Some?
      ensures if ran then actions == old(actions) + [Kill(p)]
              else actions == old(actions) && Snapshot() == old(Snapshot())
    {
      if procs[p].main == Gone { return false; }
      Exit(p);
      ran := true;
      Note(old(Snapshot()), Kill(p));
    }

    /** One statement of `inc_thread` or `dec_thread`: take the mutex, load, store, or release. */
    method WorkerTurn(p: nat, isInc: bool) returns (ran: bool)
      requires Valid() && p < |procs|
      modifies this
      ensures Valid()
      ensures ran <==> Step(CODE, n, old(Snapshot()), Work(p, isInc)).Some?
      ensures if ran then actions == old(actions) + [Work(p, isInc)]
              else actions == old(actions) && Snapshot() == old(Snapshot())
    {
      var w := WorkerOf(procs[p], isInc);
      var pc := w.pc;
      var done := w.done;
      var mutex := procs[p].mutex;
      match w.pc {
        case AtMutex =>
          if mutex.Some? { return false; }
          mutex, pc := Some(if isInc then 0 else 1), AtLoad(0);
        case AtLoad(v) =>
          if v >= |vars| { return false; }
          pc := AtStore(v, vars[v]);
        case AtStore(v, loaded) =>
          if v >= |vars| { return false; }
          vars := vars[v := if isInc then loaded + 1 else loaded - 1];
          pc := if v + 1 < |vars| then AtLoad(v + 1) else AtRelease;
        case AtRelease =>
          done := done + 1;
          mutex, pc := None, if done < n then AtMutex else Finished;
        case _ => return false;
      }
      ran := true;
      procs := procs[p := SetWorker(procs[p], isInc, Worker(pc, done)).(mutex := mutex)];
      Note(old(Snapshot()), Work(p, isInc));
    }

    /** Whatever has failed so far: few steps, no lost wake-up, and a lock that can be had again. */
    lemma OrderlySoFar()
      requires Valid()
      ensures |actions| <= count * (16 * n + 7) && (Stuck(n, Snapshot()) <==> AllGone(Snapshot()))
      ensures sem >= 0 && sem + TotalUndo(procs) == 1 + Clamped(count, n, actions)
    {
      RunsEnd(count, n, actions);
      OnlyStuckWhenDone(count, n, actions);
      UndoConserved(count, n, actions);
    }

    /** And as long as every call to take the semaphore has worked, no two threads are inside an update. */
    lemma GuardedSoFar()
      requires Valid() && LocksWorked(count, n, actions)
      ensures Run(BOTH, count, n, actions) == Some(Snapshot()) && Exclusive(Snapshot())
    {
      LocksWorkedIsBoth(count, n, actions);
      MutualExclusion(count, n, actions);
    }

    /** Main thread or worker `(p, isMain, b)` has a step to take; `b` says whether its call works, or which worker. */
    predicate Enabled(p: nat, isMain: bool, b: bool)
      reads this
    {
      p < |procs| && Step(CODE, n, Snapshot(), if isMain then Main(p, b) else Work(p, b)).Some?
    }

    lemma SomeoneIsEnabled()
      requires Valid() && !AllGone(Snapshot())
      ensures exists p: nat, isMain: bool, b: bool :: Enabled(p, isMain, b)
    {
      OrderlySoFar();
      var a: Action :| Willing(a) && Step(CODE, n, Snapshot(), a).Some?;
      assert Enabled(a.p, a.Main?, if a.Main? then a.works else a.isInc);
    }

    /** One step of a thread that can move. */
    method Turn(p: nat, isMain: bool, b: bool)
      requires Valid() && Enabled(p, isMain, b)
      modifies this
      ensures Valid() && |actions| == |old(actions)| + 1
    {
      var ran: bool;
      if isMain { ran := MainTurn(p, b); } else { ran := WorkerTurn(p, b); }
    }

    /**
      The threads run in any order, with calls failing anywhere, until nothing is left: all processes end with the
      semaphore free. If taking it has never failed, the values are the initial ones plus what deaths left behind.
     */
    method RunAll()
      requires Valid()
      modifies this
      ensures Valid() && AllGone(Snapshot()) && sem >= 1
      ensures LocksWorked(count, n, actions) ==>
                && Run(BOTH, count, n, actions).Some? && sem == 1 && |vars| == 3
                && forall v: nat :: v < 3 ==> vars[v] == INITIAL[v] + Lost(count, n, actions, v)
    {
      OrderlySoFar();
      while !AllGone(Snapshot())
        invariant Valid()
        invariant |actions| <= count * (16 * n + 7)
        decreases count * (16 * n + 7) - |actions|
      {
        SomeoneIsEnabled();
        var p: nat, isMain: bool, b: bool :| Enabled(p, isMain, b);
        Turn(p, isMain, b);
        OrderlySoFar();
      }
      FreeAtEnd(true, count, n, actions);
      if LocksWorked(count, n, actions) {
        GuardedSoFar();
        var d := SharedValues(count, n, actions);
      }
    }
  }
}
