/**
  The three threads of the condition-variable ring when they do not start in the order the program means: for which
  orders of their first locks all of them still return, whatever happens afterwards.
 */
module StartOrders {
  import opened Options
  import opened TurnOrder
  import opened ConditionRing

  /** An order in which threads 0, 1 and 2 may first lock. */
  predicate IsOrder(order: seq<nat>) {
    && |order| == 3 && (forall i :: 0 <= i < 3 ==> order[i] < 3)
    && order[0] != order[1] && order[0] != order[2] && order[1] != order[2]
  }

  predicate StartsAs(order: seq<nat>, s: State, x: nat)
    requires IsOrder(order) && Shaped(3, s)
  {
    x < 3 && NotStarted(s, x) ==> forall i, j :: 0 <= i < j < 3 && order[j] == x ==> !NotStarted(s, order[i])
  }

  /** The threads that have locked at all did so, for the first time, in this order. */
  predicate StartedAs(order: seq<nat>, n: nat, actions: seq<Action>)
    requires IsOrder(order) && Run(3, n, actions).Some?
  {
    actions == [] ||
    (var front := actions[..|actions| - 1];
     StartedAs(order, n, front) && StartsAs(order, Run(3, n, front).value, actions[|actions| - 1].x))
  }

  /** The threads in cyclic order from `l`, and from `l` in the opposite order. */
  function Rotation(l: nat): (order: seq<nat>)
    requires l < 3
    ensures IsOrder(order)
  {
    [l, Who(3, l, 1), Who(3, l, 2)]
  }

  function Reversed(l: nat): (order: seq<nat>)
    requires l < 3
    ensures IsOrder(order)
  {
    [l, Who(3, l, 2), Who(3, l, 1)]
  }

  lemma RotationOrReversed(order: seq<nat>)
    requires IsOrder(order)
    ensures var l := order[0];
            (order == Rotation(l) || order == Reversed(l)) && forall l' :: 0 <= l' < 3 ==> Reversed(l) != Rotation(l')
  {}

  // ----- A run that hangs

  predicate Reaches(order: seq<nat>, n: nat, actions: seq<Action>, s: State)
    requires IsOrder(order)
  {
    Run(3, n, actions) == Some(s) && StartedAs(order, n, actions)
  }

  lemma OneStep(order: seq<nat>, n: nat, actions: seq<Action>, s: State, a: Action)
    returns (more: seq<Action>, s': State)
    requires IsOrder(order) && Reaches(order, n, actions, s) && Step(3, n, s, a).Some? && StartsAs(order, s, a.x)
    ensures Reaches(order, n, more, s') && s' == Step(3, n, s, a).value
  {
    more, s' := actions + [a], Step(3, n, s, a).value;
    assert more[..|more| - 1] == actions;
  }

  /** Between two laps: nobody has the mutex, and each thread that waits does so on its own condition. */
  predicate Tidy(s: State) {
    && Shaped(3, s) && s.owner.None?
    && forall c :: 0 <= c < 3 ==> s.waiting[c] == if s.pc[c] == Waiting then {c} else {}
  }

  function Signalled(pc: seq<Pc>, c: nat): seq<Pc>
    requires c < |pc|
  {
    if pc[c] == Waiting then pc[c := Woken] else pc
  }

  lemma LockAndPrint(order: seq<nat>, n: nat, actions: seq<Action>, s: State, x: nat)
    returns (more: seq<Action>, s': State)
    requires IsOrder(order) && Reaches(order, n, actions, s) && Tidy(s)
    requires x < 3 && s.pc[x] == Lock && StartsAs(order, s, x)
    ensures Reaches(order, n, more, s')
    ensures s'.pc == s.pc[x := Signal] && s'.rounds == s.rounds && s'.waiting == s.waiting && s'.owner == Some(x)
  {
    more, s' := OneStep(order, n, actions, s, Action(x, x));
    more, s' := OneStep(order, n, more, s', Action(x, x));
    assert s'.pc == s.pc[x := Signal];
  }

  lemma SignalAndWait(order: seq<nat>, n: nat, actions: seq<Action>, s: State, x: nat)
    returns (more: seq<Action>, s': State)
    requires IsOrder(order) && Reaches(order, n, actions, s) && x < 3 && s.pc[x] == Signal && s.owner == Some(x)
    requires Tidy(s.(owner := None))
    ensures Reaches(order, n, more, s') && Tidy(s')
    ensures s'.pc == Signalled(s.pc, Succ(3, x))[x := Waiting] && s'.rounds == s.rounds
  {
    var y := Succ(3, x);
    more, s' := OneStep(order, n, actions, s, Action(x, y));
    more, s' := OneStep(order, n, more, s', Action(x, y));
    assert s'.pc == Signalled(s.pc, y)[x := Waiting];
  }

  /** A thread goes from the head of its loop to its wait. */
  lemma Lap(order: seq<nat>, n: nat, actions: seq<Action>, s: State, x: nat) returns (more: seq<Action>, s': State)
    requires IsOrder(order) && Reaches(order, n, actions, s) && Tidy(s)
    requires x < 3 && s.pc[x] == Lock && StartsAs(order, s, x)
    ensures Reaches(order, n, more, s') && Tidy(s') && s'.rounds == s.rounds
    ensures forall y :: 0 <= y < 3 ==>
              s'.pc[y] == if y == x then Waiting
                          else if y == Succ(3, x) && s.pc[y] == Waiting then Woken
                          else s.pc[y]
  {
    more, s' := LockAndPrint(order, n, actions, s, x);
    more, s' := SignalAndWait(order, n, more, s', x);
  }

  lemma Reacquire(order: seq<nat>, n: nat, actions: seq<Action>, s: State, x: nat)
    returns (more: seq<Action>, s': State)
    requires IsOrder(order) && Reaches(order, n, actions, s) && Tidy(s) && x < 3 && s.pc[x] == Woken
    ensures Reaches(order, n, more, s') && s' == s.(owner := Some(x), pc := s.pc[x := Unlock])
  {
    more, s' := OneStep(order, n, actions, s, Action(x, x));
  }

  lemma Release(order: seq<nat>, n: nat, actions: seq<Action>, s: State, x: nat)
    returns (more: seq<Action>, s': State)
    requires IsOrder(order) && Reaches(order, n, actions, s) && x < 3 && s.pc[x] == Unlock
    ensures Reaches(order, n, more, s')
    ensures s' == s.(owner := None, rounds := s.rounds[x := s.rounds[x] + 1],
                     pc := s.pc[x := LoopHead(n, s.rounds[x] + 1, Lock, Final(0))])
  {
    more, s' := OneStep(order, n, actions, s, Action(x, x));
  }

  /** A woken thread completes its iteration. */
  lemma Complete(order: seq<nat>, n: nat, actions: seq<Action>, s: State, x: nat)
    returns (more: seq<Action>, s': State)
    requires IsOrder(order) && Reaches(order, n, actions, s) && Tidy(s) && x < 3 && s.pc[x] == Woken
    ensures Reaches(order, n, more, s') && Tidy(s')
    ensures forall y :: 0 <= y < 3 ==> s'.rounds[y] == if y == x then s.rounds[x] + 1 else s.rounds[y]
    ensures forall y :: 0 <= y < 3 ==>
              s'.pc[y] == if y == x then LoopHead(n, s.rounds[x] + 1, Lock, Final(0)) else s.pc[y]
  {
    more, s' := Reacquire(order, n, actions, s, x);
    more, s' := Release(order, n, more, s', x);
  }

  lemma FinalSignal(order: seq<nat>, n: nat, actions: seq<Action>, s: State, x: nat, c: nat)
    returns (more: seq<Action>, s': State)
    requires IsOrder(order) && Reaches(order, n, actions, s) && Tidy(s) && x < 3 && c < 3 && s.pc[x] == Final(c)
    ensures Reaches(order, n, more, s') && Tidy(s') && s'.rounds == s.rounds
    ensures s'.pc == Signalled(s.pc, c)[x := if c < 2 then Final(c + 1) else Returned]
  {
    more, s' := OneStep(order, n, actions, s, Action(x, c));
    assert s'.pc == Signalled(s.pc, c)[x := if c < 2 then Final(c + 1) else Returned];
  }

  /** A thread signals every condition and returns: nobody is left waiting. */
  lemma Leave(order: seq<nat>, n: nat, actions: seq<Action>, s: State, x: nat) returns (more: seq<Action>, s': State)
    requires IsOrder(order) && Reaches(order, n, actions, s) && Tidy(s) && x < 3 && s.pc[x] == Final(0)
    ensures Reaches(order, n, more, s') && Tidy(s') && s'.rounds == s.rounds && s'.pc[x] == Returned
    ensures forall y :: 0 <= y < 3 && y != x ==> s'.pc[y] == if s.pc[y] == Waiting then Woken else s.pc[y]
  {
    more, s' := FinalSignal(order, n, actions, s, x, 0);
    more, s' := FinalSignal(order, n, more, s', x, 1);
    more, s' := FinalSignal(order, n, more, s', x, 2);
  }

  /**
    Started in the reversed order `a`, `c`, `b`: the leader `a` has just completed iteration `j` while `c` waits in
    its own, and `b`, which should come between them, is two iterations behind or has not even started.
   */
  predicate Behind(n: nat, l: nat, j: nat, s: State)
    requires l < 3
  {
    var a, b, c := l, Who(3, l, 1), Who(3, l, 2);
    && Tidy(s) && 0 < j <= n
    && s.rounds[a] == j && s.pc[a] == LoopHead(n, j, Lock, Final(0))
    && s.rounds[c] == j - 1 && s.pc[c] == Waiting
    && (if j == 1 then s.rounds[b] == 0 && s.pc[b] == Lock else s.rounds[b] == j - 2 && s.pc[b] == Waiting)
  }

  lemma FallBehind(n: nat, l: nat) returns (actions: seq<Action>, s: State)
    requires l < 3 && 0 < n
    ensures Reaches(Reversed(l), n, actions, s) && Behind(n, l, 1, s)
  {
    var order := Reversed(l);
    actions, s := [], Init(3, n);
    actions, s := Lap(order, n, actions, s, l);
    actions, s := Lap(order, n, actions, s, Who(3, l, 2));
    actions, s := Complete(order, n, actions, s, l);
  }

  /** The leader's next lap: the thread behind is about to lock, for the first time or again. */
  lemma LeadersLap(n: nat, l: nat, j: nat, actions: seq<Action>, s: State) returns (more: seq<Action>, s': State)
    requires l < 3 && j < n && Reaches(Reversed(l), n, actions, s) && Behind(n, l, j, s)
    ensures Reaches(Reversed(l), n, more, s') && Tidy(s')
    ensures var a, b, c := l, Who(3, l, 1), Who(3, l, 2);
            && s'.pc[a] == Waiting && s'.pc[b] == Lock && s'.pc[c] == Waiting
            && s'.rounds[a] == j && s'.rounds[b] == j - 1 && s'.rounds[c] == j - 1
  {
    more, s' := Lap(Reversed(l), n, actions, s, l);
    if j > 1 { more, s' := Complete(Reversed(l), n, more, s', Who(3, l, 1)); }
  }

  /** Then that of the thread behind, which still wakes `c` in time. */
  lemma FirstTwo(n: nat, l: nat, j: nat, actions: seq<Action>, s: State) returns (more: seq<Action>, s': State)
    requires l < 3 && j < n && Reaches(Reversed(l), n, actions, s) && Behind(n, l, j, s)
    ensures Reaches(Reversed(l), n, more, s') && Tidy(s')
    ensures var a, b, c := l, Who(3, l, 1), Who(3, l, 2);
            && s'.pc[a] == Waiting && s'.pc[b] == Waiting && s'.pc[c] == Woken
            && s'.rounds[a] == j && s'.rounds[b] == j - 1 && s'.rounds[c] == j - 1
  {
    more, s' := LeadersLap(n, l, j, actions, s);
    more, s' := Lap(Reversed(l), n, more, s', Who(3, l, 1));
  }

  /** Then that of `c`, which wakes the leader. */
  lemma ThirdLap(n: nat, l: nat, j: nat, actions: seq<Action>, s: State) returns (more: seq<Action>, s': State)
    requires l < 3 && j < n && Reaches(Reversed(l), n, actions, s) && Behind(n, l, j, s)
    ensures Reaches(Reversed(l), n, more, s') && Tidy(s')
    ensures var a, b, c := l, Who(3, l, 1), Who(3, l, 2);
            && s'.pc[a] == Woken && s'.pc[b] == Waiting && s'.pc[c] == Waiting
            && s'.rounds[a] == j && s'.rounds[b] == j - 1 && s'.rounds[c] == j
  {
    more, s' := FirstTwo(n, l, j, actions, s);
    more, s' := Complete(Reversed(l), n, more, s', Who(3, l, 2));
    more, s' := Lap(Reversed(l), n, more, s', Who(3, l, 2));
  }

  lemma StayBehind(n: nat, l: nat, j: nat, actions: seq<Action>, s: State) returns (more: seq<Action>, s': State)
    requires l < 3 && j < n && Reaches(Reversed(l), n, actions, s) && Behind(n, l, j, s)
    ensures Reaches(Reversed(l), n, more, s') && Behind(n, l, j + 1, s')
  {
    more, s' := ThirdLap(n, l, j, actions, s);
    more, s' := Complete(Reversed(l), n, more, s', l);
  }

  lemma {:induction false} AlwaysBehind(n: nat, l: nat, j: nat) returns (actions: seq<Action>, s: State)
    requires l < 3 && 0 < j <= n
    ensures Reaches(Reversed(l), n, actions, s) && Behind(n, l, j, s)
  {
    if j == 1 {
      actions, s := FallBehind(n, l);
    } else {
      actions, s := AlwaysBehind(n, l, j - 1);
      actions, s := StayBehind(n, l, j - 1, actions, s);
    }
  }

  /** The other two return, with all their final signals, before the one behind begins its last wait. */
  lemma LeftBehind(n: nat, l: nat) returns (actions: seq<Action>, s: State)
    requires l < 3 && 0 < n
    ensures Reaches(Reversed(l), n, actions, s) && Tidy(s)
    ensures var a, b, c := l, Who(3, l, 1), Who(3, l, 2);
            && s.pc[a] == Returned && s.pc[c] == Returned
            && s.rounds[b] == n - 1 && s.pc[b] == Lock
  {
    var order, b, c := Reversed(l), Who(3, l, 1), Who(3, l, 2);
    actions, s := AlwaysBehind(n, l, n);
    actions, s := Leave(order, n, actions, s, l);
    actions, s := Complete(order, n, actions, s, c);
    actions, s := Leave(order, n, actions, s, c);
    if n > 1 { actions, s := Complete(order, n, actions, s, b); }
  }

  lemma NobodyLeft(n: nat, l: nat, s: State)
    requires l < 3 && Shaped(3, s)
    requires s.pc[l] == Returned && s.pc[Who(3, l, 1)] == Waiting && s.pc[Who(3, l, 2)] == Returned
    ensures Halted(3, n, s)
  {
    forall a ensures Step(3, n, s, a).None? {
      if a.x < 3 { assert Who(3, l, Pos(3, l, a.x)) == a.x; }
    }
  }

  /** It then waits for ever. */
  lemma Hangs(n: nat, l: nat) returns (actions: seq<Action>)
    requires l < 3 && 0 < n
    ensures Run(3, n, actions).Some? && StartedAs(Reversed(l), n, actions)
    ensures var s := Run(3, n, actions).value; Halted(3, n, s) && s.pc[Who(3, l, 1)] == Waiting
  {
    var s: State;
    actions, s := LeftBehind(n, l);
    actions, s := Lap(Reversed(l), n, actions, s, Who(3, l, 1));
    NobodyLeft(n, l, s);
  }

  // ----- Which orders are safe

  lemma SameOrder(l: nat, s: State, x: nat)
    requires l < 3 && Shaped(3, s) && x < 3 && StartsAs(Rotation(l), s, x)
    ensures StartsInOrder(3, l, s, x)
  {
    var order := Rotation(l);
    forall y | 0 <= y < 3 && NotStarted(s, x) && Pos(3, l, y) < Pos(3, l, x) ensures !NotStarted(s, y) {
      assert order[Pos(3, l, y)] == y && order[Pos(3, l, x)] == x;
    }
  }

  lemma {:induction false} RotationIsInOrder(n: nat, l: nat, actions: seq<Action>)
    requires l < 3 && Run(3, n, actions).Some? && StartedAs(Rotation(l), n, actions)
    ensures StartedInOrder(3, l, n, actions)
  {
    if actions != [] {
      var front := actions[..|actions| - 1];
      RotationIsInOrder(n, l, front);
      SameOrder(l, Run(3, n, front).value, actions[|actions| - 1].x);
    }
  }

  /** With no rounds there are no locks to take in any order. */
  lemma {:induction false} NoFirstLocks(actions: seq<Action>)
    requires Run(3, 0, actions).Some?
    ensures StartedInOrder(3, 0, 0, actions)
  {
    if actions != [] {
      var front := actions[..|actions| - 1];
      NoFirstLocks(front);
      InOrderIsOrdered(3, 0, 0, front);
      var p := RunsProgress(3, 0, 0, front);
    }
  }

  /** Every run with first locks in this order that comes to its end has all threads returned. */
  ghost predicate AlwaysReturns(order: seq<nat>, n: nat)
    requires IsOrder(order)
  {
    forall actions :: Run(3, n, actions).Some? && StartedAs(order, n, actions)
                      && Halted(3, n, Run(3, n, actions).value) ==>
                        Everyone(Run(3, n, actions).value.pc, Returned)
  }

  /**
    Which start orders are safe: all three threads return in every run that starts in a given order if and only if
    that order is the meant one or a rotation of it; or there are no rounds.
   */
  lemma ReturnsExactlyWhen(order: seq<nat>, n: nat)
    requires IsOrder(order)
    ensures AlwaysReturns(order, n) <==> n == 0 || exists l :: 0 <= l < 3 && order == Rotation(l)
  {
    RotationOrReversed(order);
    var l := order[0];
    if n == 0 || order == Rotation(l) {
      forall actions | Run(3, n, actions).Some? && StartedAs(order, n, actions)
                       && Halted(3, n, Run(3, n, actions).value)
        ensures Everyone(Run(3, n, actions).value.pc, Returned)
      {
        var leader := if n == 0 then 0 else l;
        if n == 0 { NoFirstLocks(actions); } else { RotationIsInOrder(n, l, actions); }
        StartOrderDecides(3, leader, n, actions);
      }
    } else {
      var actions := Hangs(n, l);
    }
  }
}
