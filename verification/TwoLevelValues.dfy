/** What the shared variables hold under two levels of locking: after every run, and after what deaths. */
module TwoLevelValues {
  import opened Options
  import opened TwoLevelLock
  import opened TwoLevelRuns

  // ----- The shared values

  predicate NobodyInUpdate(s: State) {
    forall p :: 0 <= p < |s.procs| ==> !InUpdate(s.procs[p].inc) && !InUpdate(s.procs[p].dec)
  }

  /**
    Where taking the semaphore works, and whatever dies wherever: the shared values are 10, 12, 14 plus what deaths
    have left behind, whenever the semaphore is free, so in particular when all processes are gone; and whenever no
    thread is inside an update they are off from that by one common amount of at most `n` either way, however many
    processes there are.
   */
  lemma SharedValues(procs: nat, n: nat, actions: seq<Action>) returns (d: int)
    requires Run(BOTH, procs, n, actions).Some?
    ensures var s := Run(BOTH, procs, n, actions).value;
            && |s.vars| == 3
            && (AllGone(s) ==> s.sem == 1)
            && (s.sem > 0 ==> forall v: nat :: v < 3 ==> s.vars[v] == INITIAL[v] + Lost(procs, n, actions, v))
            && (NobodyInUpdate(s) ==>
                  && 0 - n <= d <= n
                  && forall v: nat :: v < 3 ==> s.vars[v] == INITIAL[v] + Lost(procs, n, actions, v) + d)
  {
    var holder, base := RunsKeep(procs, n, actions);
    var s := Run(BOTH, procs, n, actions).value;
    d := if holder.None? then 0 else s.procs[holder.value].inc.done - s.procs[holder.value].dec.done;
  }

  /** Where the main thread is while its workers may have changed the values unevenly. */
  const MIDWAY: set<MainPc> := {AtCreate2, AtJoin1, AtJoin2}

  lemma HarmlessDeath(n: nat, s: State, p: nat, holder: Option<nat>, base: seq<int>, v: nat)
    requires Inv(n, s, holder, base) && p < |s.procs| && (n == 0 || s.procs[p].main !in MIDWAY)
    ensures Net(s.procs[p], v) == 0
  {}

  lemma {:induction false} NothingLost(procs: nat, n: nat, actions: seq<Action>, places: set<MainPc>, v: nat)
    requires Run(BOTH, procs, n, actions).Some? && DeathsAt(BOTH, procs, n, actions, places)
    requires n == 0 || places !! MIDWAY
    ensures Lost(procs, n, actions, v) == 0
  {
    if actions != [] {
      var front, a := actions[..|actions| - 1], actions[|actions| - 1];
      NothingLost(procs, n, front, places, v);
      var holder, base := RunsKeep(procs, n, front);
      var s := Run(BOTH, procs, n, front).value;
      if IsDeath(s, a) { HarmlessDeath(n, s, a.p, holder, base, v); }
    }
  }

  // ----- What can be lost

  /** A lone process gets between two of its stores. */
  lemma BetweenStores(lockFails: bool, n: nat) returns (actions: seq<Action>, s: State)
    requires 0 < n
    ensures Reaches(lockFails, 1, n, actions, s) && s.sem == 0 && s.vars == [11, 12, 14]
    ensures s.procs[0].main == AtCreate2 && s.procs[0].undo == 1
  {
    ReachesInit(lockFails, 1, n);
    actions, s := OneStep(lockFails, 1, n, [], Init(1), Main(0, true));
    actions, s := OneStep(lockFails, 1, n, actions, s, Main(0, true));
    actions, s := OneStep(lockFails, 1, n, actions, s, Work(0, true));
    actions, s := OneStep(lockFails, 1, n, actions, s, Work(0, true));
    actions, s := OneStep(lockFails, 1, n, actions, s, Work(0, true));
  }

  /** A lone process gets to its joins with one worker done and the other not begun. */
  lemma BetweenWorkers(lockFails: bool, n: nat, place: MainPc) returns (actions: seq<Action>, s: State)
    requires 0 < n && place in {AtJoin1, AtJoin2}
    ensures Reaches(lockFails, 1, n, actions, s) && s.procs[0].main == place && s.vars != INITIAL
  {
    ReachesInit(lockFails, 1, n);
    actions, s := OneStep(lockFails, 1, n, [], Init(1), Main(0, true));
    actions, s := Advance(lockFails, 1, n, actions, s, 0, AtJoin1, INITIAL);
    assert s.vars[0] == 10 + n;
    if place == AtJoin2 { actions, s := OneStep(lockFails, 1, n, actions, s, Main(0, true)); }
  }

  /** A lone process dies. */
  lemma LoneDeath(lockFails: bool, n: nat, actions: seq<Action>, s: State, a: Action)
    requires Reaches(lockFails, 1, n, actions, s) && a.p == 0 && IsDeath(s, a) && s.procs[0].main != Gone
    ensures Run(Locked(lockFails), 1, n, actions + [a]) == Some(Die(s, 0))
    ensures DeathsAt(Locked(lockFails), 1, n, actions + [a], {s.procs[0].main}) && AllGone(Die(s, 0))
  {
    MorePlaces(Locked(lockFails), 1, n, actions, {}, {s.procs[0].main});
    assert (actions + [a])[..|actions|] == actions;
  }

  /** Dying at any of the places in between can leave the values off. */
  lemma TornMidway(lockFails: bool, n: nat, place: MainPc) returns (actions: seq<Action>)
    requires 0 < n && place in MIDWAY
    ensures var o := Run(Locked(lockFails), 1, n, actions); o.Some? && AllGone(o.value) && o.value.vars != INITIAL
    ensures DeathsAt(Locked(lockFails), 1, n, actions, {place})
  {
    var s: State;
    if place == AtCreate2 {
      actions, s := BetweenStores(lockFails, n);
    } else {
      actions, s := BetweenWorkers(lockFails, n, place);
    }
    LoneDeath(lockFails, n, actions, s, Kill(0));
    actions := actions + [Kill(0)];
  }

  /**
    The code's own failure path: the second creation fails while the first worker is between two stores, the
    process exits with the semaphore, and 11, 12, 14 are left with nobody to repair them.
   */
  lemma TornByFailedCreate(n: nat) returns (actions: seq<Action>)
    requires 0 < n
    ensures Run(BOTH, 1, n, actions) == Some(State(1, [11, 12, 14], [Ended()]))
    ensures DeathsAt(BOTH, 1, n, actions, {AtCreate2})
  {
    var s: State;
    actions, s := BetweenStores(false, n);
    LoneDeath(false, n, actions, s, Main(0, false));
    assert Die(s, 0).procs == [Ended()];
    actions := actions + [Main(0, false)];
  }

  /** Both calls to take the semaphore fail, and the first child has loaded a value that the second will change. */
  lemma StaleLoad(n: nat) returns (actions: seq<Action>, s: State)
    requires 0 < n
    ensures Reaches(true, 2, n, actions, s) && s.vars == INITIAL
    ensures s.procs[0] == Begun(0, Worker(AtStore(0, 10), 0)).(mutex := Some(0))
    ensures s.procs[1] == Fresh().(main := AtCreate1)
  {
    ReachesInit(true, 2, n);
    actions, s := OneStep(true, 2, n, [], Init(2), Main(0, false));
    actions, s := OneStep(true, 2, n, actions, s, Main(0, true));
    actions, s := OneStep(true, 2, n, actions, s, Work(0, true));
    actions, s := OneStep(true, 2, n, actions, s, Work(0, true));
    actions, s := OneStep(true, 2, n, actions, s, Main(1, false));
  }

  /** The first child's stale store comes after all increments of the second. */
  lemma StaleStore(n: nat) returns (actions: seq<Action>, s: State)
    requires 0 < n
    ensures Reaches(true, 2, n, actions, s) && |s.vars| == 3 && s.vars[0] == 11
    ensures s.procs[0] == Begun(0, Worker(AtLoad(1), 0)).(mutex := Some(0))
    ensures s.procs[1].main == AtJoin1 && Alone(n, s.procs[1], s.vars, [11 - n, 12, 14])
  {
    actions, s := StaleLoad(n);
    actions, s := Advance(true, 2, n, actions, s, 1, AtJoin1, INITIAL);
    actions, s := OneStep(true, 2, n, actions, s, Work(0, true));
  }

  /** When taking the semaphore fails, updates are lost though nobody dies. */
  lemma LostUpdates(n: nat) returns (actions: seq<Action>, s: State)
    requires 0 < n
    ensures Reaches(true, 2, n, actions, s) && AllGone(s) && s.vars == [10 - n, 12, 14]
  {
    actions, s := StaleStore(n);
    actions, s := GoHome(true, 2, n, actions, s, 1, [11 - n, 12, 14]);
    assert Alone(n, s.procs[0], s.vars, [10 - n, 12, 14]);
    actions, s := GoHome(true, 2, n, actions, s, 0, [10 - n, 12, 14]);
  }

  // ----- When nothing is lost

  lemma {:induction false} NothingToDo(procs: nat, actions: seq<Action>)
    requires Run(CODE, procs, 0, actions).Some?
    ensures Run(CODE, procs, 0, actions).value.vars == INITIAL
  {
    if actions != [] {
      var front, a := actions[..|actions| - 1], actions[|actions| - 1];
      NothingToDo(procs, front);
      RunsAreLocal(procs, 0, front);
      OneProcChanges(0, Run(CODE, procs, 0, front).value, a);
    }
  }

  /** With deaths only at `places`, the values are the initial ones when all processes are gone. */
  ghost predicate RestoresAtEnd(lockFails: bool, n: nat, places: set<MainPc>) {
    forall procs, actions ::
      Run(Locked(lockFails), procs, n, actions).Some? && DeathsAt(Locked(lockFails), procs, n, actions, places) ==>
        var s := Run(Locked(lockFails), procs, n, actions).value; AllGone(s) ==> s.vars == INITIAL
  }

  /** And whenever the semaphore is free. */
  ghost predicate RestoresWhenFree(lockFails: bool, n: nat, places: set<MainPc>) {
    forall procs, actions ::
      Run(Locked(lockFails), procs, n, actions).Some? && DeathsAt(Locked(lockFails), procs, n, actions, places) ==>
        var s := Run(Locked(lockFails), procs, n, actions).value; s.sem > 0 ==> s.vars == INITIAL
  }

  lemma LockedIsCode(lockFails: bool, procs: nat, n: nat, actions: seq<Action>)
    requires Run(Locked(lockFails), procs, n, actions).Some?
    ensures Run(CODE, procs, n, actions) == Run(Locked(lockFails), procs, n, actions)
  {
    if !lockFails { BothIsCode(procs, n, actions); }
  }

  lemma Restored(lockFails: bool, procs: nat, n: nat, actions: seq<Action>, places: set<MainPc>)
    requires Run(Locked(lockFails), procs, n, actions).Some?
    requires DeathsAt(Locked(lockFails), procs, n, actions, places)
    requires n == 0 || (places !! MIDWAY && !lockFails)
    ensures var s := Run(Locked(lockFails), procs, n, actions).value; s.sem > 0 ==> s.vars == INITIAL
  {
    if n == 0 {
      LockedIsCode(lockFails, procs, n, actions);
      NothingToDo(procs, actions);
    } else {
      var d := SharedValues(procs, n, actions);
      forall v: nat | v < 3 ensures Lost(procs, n, actions, v) == 0 { NothingLost(procs, n, actions, places, v); }
    }
  }

  lemma FreeAtEnd(lockFails: bool, procs: nat, n: nat, actions: seq<Action>)
    requires Run(Locked(lockFails), procs, n, actions).Some?
    ensures var s := Run(Locked(lockFails), procs, n, actions).value; AllGone(s) ==> s.sem > 0
  {
    LockedIsCode(lockFails, procs, n, actions);
    var s := Run(CODE, procs, n, actions).value;
    RunsAreLocal(procs, n, actions);
    UndoConserved(procs, n, actions);
    if AllGone(s) { NoUndo(s.procs); }
  }

  lemma NotRestored(lockFails: bool, n: nat, places: set<MainPc>) returns (procs: nat, actions: seq<Action>)
    requires 0 < n && (lockFails || !(places !! MIDWAY))
    ensures Run(Locked(lockFails), procs, n, actions).Some?
    ensures DeathsAt(Locked(lockFails), procs, n, actions, places)
    ensures var s := Run(Locked(lockFails), procs, n, actions).value; AllGone(s) && s.vars != INITIAL
  {
    if lockFails {
      var s: State;
      actions, s := LostUpdates(n);
      procs := 2;
      MorePlaces(CODE, 2, n, actions, {}, places);
    } else {
      var place :| place in places && place in MIDWAY;
      procs := 1;
      actions := TornMidway(lockFails, n, place);
      MorePlaces(Locked(lockFails), 1, n, actions, {place}, places);
    }
  }

  /**
    What it takes to get 10, 12, 14 back, at the end of every run or whenever the semaphore is free: taking the
    semaphore must not fail, and no process may die while its main thread is at its second creation or its two
    joins; or there is nothing to iterate.
   */
  lemma RestoredExactlyWhen(lockFails: bool, n: nat, places: set<MainPc>)
    ensures RestoresAtEnd(lockFails, n, places) <==> n == 0 || (places !! MIDWAY && !lockFails)
    ensures RestoresWhenFree(lockFails, n, places) <==> n == 0 || (places !! MIDWAY && !lockFails)
  {
    if n == 0 || (places !! MIDWAY && !lockFails) {
      forall procs, actions | Run(Locked(lockFails), procs, n, actions).Some?
                              && DeathsAt(Locked(lockFails), procs, n, actions, places)
        ensures var s := Run(Locked(lockFails), procs, n, actions).value;
                (s.sem > 0 ==> s.vars == INITIAL) && (AllGone(s) ==> s.sem > 0)
      {
        Restored(lockFails, procs, n, actions, places);
        FreeAtEnd(lockFails, procs, n, actions);
      }
    } else {
      var procs, actions := NotRestored(lockFails, n, places);
      FreeAtEnd(lockFails, procs, n, actions);
    }
  }
}
