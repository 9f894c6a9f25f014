/**
  Two threads that alternate through one shared condition variable and one mutex, for any number `n` of rounds.

  Each thread loops: lock, print its own counter and add 2, signal, wait on the same condition, unlock; after the
  loop it signals once more. Either thread may get the mutex first. Wait sets are explicit, a signal wakes exactly
  one waiter and there are no spurious wake-ups.
 */
module Alternation {
  import opened Options
  import opened TurnOrder

  datatype Pc = Lock | Print | Signal | Wait | Waiting | Woken | Unlock | Final | Returned

  datatype State = State(
    pc: seq<Pc>,
    rounds: seq<nat>,              // completed iterations
    counter: seq<nat>,             // each thread's local i
    owner: Option<nat>,
    waiting: set<nat>,
    out: seq<(nat, nat)>)          // (thread, number) printed

  /** Thread `x` moves; if it signals and someone waits, `w` is woken. */
  datatype Action = Action(x: nat, w: nat)

  predicate Shaped(s: State) {
    |s.pc| == 2 && |s.rounds| == 2 && |s.counter| == 2 && forall w <- s.waiting :: w < 2
  }

  function Init(n: nat): State {
    State([LoopHead(n, 0, Lock, Final), LoopHead(n, 0, Lock, Final)], [0, 0], [1, 2], None, {}, [])
  }

  function CondSignal(s: State, w: nat): (r: Option<State>)
    requires Shaped(s)
    ensures r.Some? ==> Shaped(r.value)
  {
    if s.waiting == {} then Some(s)
    else if w in s.waiting then Some(s.(waiting := s.waiting - {w}, pc := s.pc[w := Woken]))
    else None
  }

  function Step(n: nat, s: State, a: Action): (r: Option<State>)
    requires Shaped(s)
    ensures r.Some? ==> Shaped(r.value)
  {
    var x := a.x;
    if x >= 2 then None else
    match s.pc[x]
    case Lock => if s.owner.Some? then None else Some(s.(owner := Some(x), pc := s.pc[x := Print]))
    case Print =>
      Some(s.(out := s.out + [(x, s.counter[x])], counter := s.counter[x := s.counter[x] + 2], pc := s.pc[x := Signal]))
    case Signal => CondSignal(s.(pc := s.pc[x := Wait]), a.w)
    case Wait => Some(s.(owner := None, waiting := s.waiting + {x}, pc := s.pc[x := Waiting]))
    case Waiting => None
    case Woken => if s.owner.Some? then None else Some(s.(owner := Some(x), pc := s.pc[x := Unlock]))
    case Unlock =>
      Some(s.(owner := None, rounds := s.rounds[x := s.rounds[x] + 1],
              pc := s.pc[x := LoopHead(n, s.rounds[x] + 1, Lock, Final)]))
    case Final => CondSignal(s.(pc := s.pc[x := Returned]), a.w)
    case Returned => None
  }

  function Run(n: nat, actions: seq<Action>): (r: Option<State>)
    ensures r.Some? ==> Shaped(r.value)
  {
    if actions == [] then Some(Init(n))
    else
      var before := Run(n, actions[..|actions| - 1]);
      if before.None? then None else Step(n, before.value, actions[|actions| - 1])
  }

  // ----- What is printed

  /** Thread `x`'s print in round `r`: odd numbers for thread 0, even ones for thread 1. */
  function Printed(x: nat, r: nat): (nat, nat) {
    (x, 1 + x + 2 * r)
  }

  function Other(x: nat): nat {
    if x == 0 then 1 else 0
  }

  /** `r` rounds in strict alternation, thread `f` first. */
  function Alternating(f: nat, r: nat): seq<(nat, nat)> {
    if r == 0 then [] else Alternating(f, r - 1) + [Printed(f, r - 1), Printed(Other(f), r - 1)]
  }

  // ----- The turns

  /**
    Round `r`, the turn of the thread that got the mutex first (`first`) or of the other. Round `n` is the way out:
    each thread leaves its last wait, unlocks, signals and returns. `Over` is the end.
   */
  datatype Turn = Turn(r: nat, first: bool, stage: Pc) | Over

  predicate Proper(n: nat, t: Turn) {
    && 0 < n
    && (t.Turn? ==>
          && t.r <= n
          && (t.r == 0 ==> t.stage in {Lock, Print, Signal, Wait})
          && (0 < t.r < n ==> t.stage in {Woken, Unlock, Lock, Print, Signal, Wait})
          && (t.r == n ==> t.stage in {Woken, Unlock, Final}))
  }

  function NextTurn(n: nat, t: Turn): (t': Turn)
    requires Proper(n, t) && t.Turn?
    ensures Proper(n, t')
  {
    match t.stage
    case Woken => t.(stage := Unlock)
    case Unlock => t.(stage := if t.r == n then Final else Lock)
    case Lock => t.(stage := Print)
    case Print => t.(stage := Signal)
    case Signal => t.(stage := Wait)
    case Wait => if t.first then Turn(t.r, false, if t.r == 0 then Lock else Woken) else Turn(t.r + 1, true, Woken)
    case _ => if t.first then Turn(t.r, false, Woken) else Over
  }

  /** Who has the turn, when thread `f` was first. */
  function Mover(f: nat, t: Turn): nat
    requires t.Turn?
  {
    if t.first then f else Other(f)
  }

  function MoverRounds(t: Turn): nat
    requires t.Turn?
  {
    if t.stage in {Woken, Unlock} && t.r > 0 then t.r - 1 else t.r
  }

  /** The other thread: not started, waiting, just woken, or gone. */
  function IdlePc(n: nat, t: Turn): Pc
    requires t.Turn?
  {
    if t.r == 0 && t.first then Lock
    else if t.r == n && !t.first then Returned
    else if t.stage == Wait then Woken
    else Waiting
  }

  function IdleRounds(n: nat, t: Turn): nat
    requires t.Turn?
  {
    if !t.first then t.r else if t.r == 0 then 0 else t.r - 1
  }

  function Prints(t: Turn): nat
    requires t.Turn?
  {
    if t.stage in {Signal, Wait} then t.r + 1 else t.r
  }

  function OutAt(f: nat, n: nat, t: Turn): seq<(nat, nat)> {
    match t
    case Over => Alternating(f, n)
    case Turn(r, first, stage) =>
      var before := Alternating(f, r) + if first || r == n then [] else [Printed(f, r)];
      if stage in {Signal, Wait} then before + [Printed(Mover(f, t), r)] else before
  }

  function Pair<T>(x: nat, mine: T, other: T): seq<T> {
    if x == 0 then [mine, other] else [other, mine]
  }

  function IdlePrints(n: nat, t: Turn): nat
    requires t.Turn?
  {
    if !t.first && t.r < n then t.r + 1 else t.r
  }

  function Place(f: nat, n: nat, t: Turn): (s: State)
    requires f < 2 && Proper(n, t)
    ensures Shaped(s)
  {
    match t
    case Over => State([Returned, Returned], [n, n], [1 + 2 * n, 2 + 2 * n], None, {}, OutAt(f, n, t))
    case Turn(r, first, stage) =>
      var x := Mover(f, t);
      State(Pair(x, stage, IdlePc(n, t)),
            Pair(x, MoverRounds(t), IdleRounds(n, t)),
            Pair(x, 1 + x + 2 * Prints(t), 1 + Other(x) + 2 * IdlePrints(n, t)),
            if stage in {Print, Signal, Wait, Unlock} then Some(x) else None,
            if IdlePc(n, t) == Waiting then {Other(x)} else {},
            OutAt(f, n, t))
  }

  lemma StateEquals(s: State, s': State)
    requires Shaped(s) && Shaped(s')
    requires s.pc[0] == s'.pc[0] && s.rounds[0] == s'.rounds[0] && s.counter[0] == s'.counter[0]
    requires s.pc[1] == s'.pc[1] && s.rounds[1] == s'.rounds[1] && s.counter[1] == s'.counter[1]
    requires s.owner == s'.owner && s.waiting == s'.waiting && s.out == s'.out
    ensures s == s'
  {
    assert s.pc == s'.pc && s.rounds == s'.rounds && s.counter == s'.counter;
  }

  lemma OutMore(f: nat, n: nat, t: Turn)
    requires f < 2 && Proper(n, t) && t.Turn?
    ensures OutAt(f, n, NextTurn(n, t)) ==
            if t.stage == Print then OutAt(f, n, t) + [Printed(Mover(f, t), t.r)] else OutAt(f, n, t)
  {
    if t.stage == Wait && !t.first {
      assert Alternating(f, t.r) + [Printed(f, t.r)] + [Printed(Other(f), t.r)] == Alternating(f, t.r + 1);
    }
  }

  /** The shape a print has in a state of two threads. */
  lemma PrintOf(n: nat, s: State, x: nat, w: nat)
    requires Shaped(s) && x < 2 && s.pc[x] == Print
    ensures Step(n, s, Action(x, w)) ==
            Some(s.(pc := s.pc[x := Signal], counter := s.counter[x := s.counter[x] + 2],
                    out := s.out + [(x, s.counter[x])]))
  {}

  lemma MoverPrints(f: nat, n: nat, t: Turn, a: Action)
    requires f < 2 && Proper(n, t) && t.Turn? && a.x == Mover(f, t) && t.stage == Print
    ensures Step(n, Place(f, n, t), a) == Some(Place(f, n, NextTurn(n, t)))
  {
    var s, s' := Place(f, n, t), Place(f, n, NextTurn(n, t));
    PrintOf(n, s, a.x, a.w);
    OutMore(f, n, t);
    assert s.counter[a.x] == Printed(a.x, t.r).1;
    StateEquals(Step(n, s, a).value, s');
  }

  lemma MoverWaits(f: nat, n: nat, t: Turn, a: Action)
    requires f < 2 && Proper(n, t) && t.Turn? && a.x == Mover(f, t) && t.stage == Wait
    ensures Step(n, Place(f, n, t), a) == Some(Place(f, n, NextTurn(n, t)))
  {
    OutMore(f, n, t);
    StateEquals(Step(n, Place(f, n, t), a).value, Place(f, n, NextTurn(n, t)));
  }

  lemma MoverLocks(f: nat, n: nat, t: Turn, a: Action)
    requires f < 2 && Proper(n, t) && t.Turn? && a.x == Mover(f, t) && t.stage == Lock
    ensures Step(n, Place(f, n, t), a) == Some(Place(f, n, NextTurn(n, t)))
  {
    StateEquals(Step(n, Place(f, n, t), a).value, Place(f, n, NextTurn(n, t)));
  }

  lemma MoverLocksAgain(f: nat, n: nat, t: Turn, a: Action)
    requires f < 2 && Proper(n, t) && t.Turn? && a.x == Mover(f, t) && t.stage == Woken
    ensures Step(n, Place(f, n, t), a) == Some(Place(f, n, NextTurn(n, t)))
  {
    StateEquals(Step(n, Place(f, n, t), a).value, Place(f, n, NextTurn(n, t)));
  }

  lemma MoverUnlocks(f: nat, n: nat, t: Turn, a: Action)
    requires f < 2 && Proper(n, t) && t.Turn? && a.x == Mover(f, t) && t.stage == Unlock
    ensures Step(n, Place(f, n, t), a) == Some(Place(f, n, NextTurn(n, t)))
  {
    StateEquals(Step(n, Place(f, n, t), a).value, Place(f, n, NextTurn(n, t)));
  }

  lemma MoverMoves(f: nat, n: nat, t: Turn, a: Action)
    requires f < 2 && Proper(n, t) && t.Turn? && a.x == Mover(f, t)
    requires t.stage !in {Signal, Final}
    ensures Step(n, Place(f, n, t), a) == Some(Place(f, n, NextTurn(n, t)))
  {
    match t.stage
    case Print => MoverPrints(f, n, t, a);
    case Wait => MoverWaits(f, n, t, a);
    case Unlock => MoverUnlocks(f, n, t, a);
    case Lock => MoverLocks(f, n, t, a);
    case _ => MoverLocksAgain(f, n, t, a);
  }

  lemma MoverSignalsInLoop(f: nat, n: nat, t: Turn, a: Action)
    requires f < 2 && Proper(n, t) && t.Turn? && a.x == Mover(f, t) && t.stage == Signal
    ensures Step(n, Place(f, n, t), a) ==
            if IdlePc(n, t) == Waiting && a.w != Other(a.x) then None else Some(Place(f, n, NextTurn(n, t)))
  {
    OutMore(f, n, t);
    var o := Step(n, Place(f, n, t), a);
    if o.Some? { StateEquals(o.value, Place(f, n, NextTurn(n, t))); }
  }

  lemma MoverSignalsLast(f: nat, n: nat, t: Turn, a: Action)
    requires f < 2 && Proper(n, t) && t.Turn? && a.x == Mover(f, t) && t.stage == Final
    ensures Step(n, Place(f, n, t), a) ==
            if IdlePc(n, t) == Waiting && a.w != Other(a.x) then None else Some(Place(f, n, NextTurn(n, t)))
  {
    OutMore(f, n, t);
    var o := Step(n, Place(f, n, t), a);
    if o.Some? { StateEquals(o.value, Place(f, n, NextTurn(n, t))); }
  }

  lemma MoverSignals(f: nat, n: nat, t: Turn, a: Action)
    requires f < 2 && Proper(n, t) && t.Turn? && a.x == Mover(f, t)
    requires t.stage in {Signal, Final}
    ensures Step(n, Place(f, n, t), a) ==
            if IdlePc(n, t) == Waiting && a.w != Other(a.x) then None else Some(Place(f, n, NextTurn(n, t)))
  {
    if t.stage == Signal { MoverSignalsInLoop(f, n, t, a); } else { MoverSignalsLast(f, n, t, a); }
  }

  /** The thread without the turn cannot move, unless neither has started yet. */
  lemma IdleStays(f: nat, n: nat, t: Turn, a: Action)
    requires f < 2 && Proper(n, t) && (t.Turn? ==> a.x != Mover(f, t)) && t != Turn(0, true, Lock)
    ensures Step(n, Place(f, n, t), a) == None
  {}

  lemma OnlyTheTurnMoves(f: nat, n: nat, t: Turn, a: Action)
    requires f < 2 && Proper(n, t) && t != Turn(0, true, Lock) && Step(n, Place(f, n, t), a).Some?
    ensures t.Turn? && a.x == Mover(f, t) && Step(n, Place(f, n, t), a) == Some(Place(f, n, NextTurn(n, t)))
  {
    if t.Over? || a.x != Mover(f, t) {
      IdleStays(f, n, t, a);
    } else if t.stage in {Signal, Final} {
      MoverSignals(f, n, t, a);
    } else {
      MoverMoves(f, n, t, a);
    }
  }

  /** Before anyone has the mutex the state does not say who will be first. */
  lemma EitherMayStart(n: nat, a: Action)
    requires 0 < n && Step(n, Init(n), a).Some?
    ensures a.x < 2 && Init(n) == Place(a.x, n, Turn(0, true, Lock))
    ensures Step(n, Init(n), a) == Some(Place(a.x, n, Turn(0, true, Print)))
  {
    StateEquals(Init(n), Place(a.x, n, Turn(0, true, Lock)));
    MoverMoves(a.x, n, Turn(0, true, Lock), a);
  }

  // ----- Progress

  function StageIndex(stage: Pc): nat {
    match stage
    case Woken => 0 case Unlock => 1 case Lock => 2 case Print => 3 case Signal => 4 case Wait => 5 case _ => 2
  }

  /** Steps left until both threads have returned. */
  function Left(n: nat, t: Turn): int
    requires Proper(n, t)
  {
    match t
    case Over => 0
    case Turn(r, first, stage) =>
      if r == 0 then 12 * (n - 1) + 6 + (if first then 8 else 4) - (StageIndex(stage) - 2)
      else 12 * (n - r) + 6 - (if first then 0 else if r == n then 3 else 6) - StageIndex(stage)
  }

  lemma LeftDrops(n: nat, t: Turn)
    requires Proper(n, t) && t.Turn?
    ensures Left(n, NextTurn(n, t)) == Left(n, t) - 1 && Left(n, t) > 0
    ensures NextTurn(n, t) != Turn(0, true, Lock)
  {}

  lemma {:induction false} RunsAreTurns(n: nat, actions: seq<Action>) returns (f: nat, t: Turn)
    requires 0 < n && Run(n, actions).Some?
    ensures f < 2 && Proper(n, t) && Run(n, actions).value == Place(f, n, t)
    ensures |actions| + Left(n, t) == 12 * n + 2
    ensures actions != [] ==> f == actions[0].x && t != Turn(0, true, Lock)
  {
    if actions == [] {
      f, t := 0, Turn(0, true, Lock);
    } else {
      var front, a := actions[..|actions| - 1], actions[|actions| - 1];
      f, t := RunsAreTurns(n, front);
      if front == [] {
        EitherMayStart(n, a);
        f, t := a.x, Turn(0, true, Print);
      } else {
        OnlyTheTurnMoves(f, n, t, a);
        LeftDrops(n, t);
        t := NextTurn(n, t);
      }
    }
  }

  // ----- What the program guarantees

  ghost predicate Stuck(n: nat, s: State)
    requires Shaped(s)
  {
    forall a :: Step(n, s, a).None?
  }

  lemma {:induction false} AlternatingPrefix(f: nat, r: nat, n: nat)
    requires r <= n
    ensures Alternating(f, r) <= Alternating(f, n)
    decreases n
  {
    if r < n { AlternatingPrefix(f, r, n - 1); }
  }

  lemma OutPrefix(f: nat, n: nat, t: Turn)
    requires f < 2 && Proper(n, t)
    ensures OutAt(f, n, t) <= Alternating(f, n)
  {
    if t.Turn? {
      AlternatingPrefix(f, t.r, n);
      if t.r < n { AlternatingPrefix(f, t.r + 1, n); }
    }
  }

  lemma TurnMoves(f: nat, n: nat, t: Turn)
    requires f < 2 && Proper(n, t)
    ensures var s := Place(f, n, t); (Stuck(n, s) <==> t.Over?) && (Everyone(s.pc, Returned) <==> t.Over?)
  {
    var s := Place(f, n, t);
    if t.Turn? {
      var a := Action(Mover(f, t), Other(Mover(f, t)));
      if t.stage in {Signal, Final} { MoverSignals(f, n, t, a); } else { MoverMoves(f, n, t, a); }
      assert Step(n, s, a).Some?;
      assert s.pc[Mover(f, t)] != Returned;
    } else {
      forall a ensures Step(n, s, a).None? { IdleStays(f, n, t, a); }
    }
  }

  /** With no rounds the threads only signal, once each, and return. */
  lemma {:induction false} NoRounds(actions: seq<Action>)
    requires Run(0, actions).Some?
    ensures var s := Run(0, actions).value;
            && s.out == [] && s.waiting == {} && s.pc[0] in {Final, Returned} && s.pc[1] in {Final, Returned}
            && |actions| == (if s.pc[0] == Returned then 1 else 0) + (if s.pc[1] == Returned then 1 else 0)
    ensures actions != [] ==> actions[0].x < 2
  {
    if actions != [] {
      var front, a := actions[..|actions| - 1], actions[|actions| - 1];
      NoRounds(front);
      assert Step(0, Run(0, front).value, a).Some?;
    }
  }

  lemma LastSignals(s: State)
    requires Shaped(s) && s.waiting == {} && s.pc[0] in {Final, Returned} && s.pc[1] in {Final, Returned}
    ensures Stuck(0, s) <==> s.pc[0] == Returned && s.pc[1] == Returned
  {
    if s.pc[0] == Final { assert Step(0, s, Action(0, 0)).Some?; }
    if s.pc[1] == Final { assert Step(0, s, Action(1, 0)).Some?; }
  }

  lemma {:induction false} AlternatingLength(f: nat, r: nat)
    ensures |Alternating(f, r)| == 2 * r
  {
    if r > 0 { AlternatingLength(f, r - 1); }
  }

  /** What holds of the state `s` that `steps` steps have led to, when thread `f` was the first to move. */
  ghost predicate Alternates(n: nat, f: nat, steps: nat, s: State)
    requires Shaped(s)
  {
    && f < 2
    && s.out <= Alternating(f, n)
    && |s.waiting| <= 1
    && steps <= 12 * n + 2
    && (Stuck(n, s) <==> Everyone(s.pc, Returned))
    && (Stuck(n, s) <==> steps == 12 * n + 2)
    && (Stuck(n, s) ==> s.out == Alternating(f, n) && |s.out| == 2 * n)
  }

  lemma {:induction false} RoundsAlternate(n: nat, actions: seq<Action>)
    requires 0 < n && Run(n, actions).Some? && actions != []
    ensures Alternates(n, actions[0].x, |actions|, Run(n, actions).value)
  {
    var f, t := RunsAreTurns(n, actions);
    OutPrefix(f, n, t);
    TurnMoves(f, n, t);
    AlternatingLength(f, n);
    if t.Turn? { LeftDrops(n, t); }
  }

  lemma OnlySignals(f: nat, steps: nat, s: State)
    requires Shaped(s) && s.waiting == {} && s.pc[0] in {Final, Returned} && s.pc[1] in {Final, Returned}
    requires f < 2 && s.out == []
    requires steps == (if s.pc[0] == Returned then 1 else 0) + (if s.pc[1] == Returned then 1 else 0)
    ensures Alternates(0, f, steps, s)
  {
    LastSignals(s);
    assert Alternating(f, 0) == [];
  }

  lemma NoRoundsAlternate(actions: seq<Action>)
    requires Run(0, actions).Some? && actions != []
    ensures Alternates(0, actions[0].x, |actions|, Run(0, actions).value)
  {
    NoRounds(actions);
    OnlySignals(actions[0].x, |actions|, Run(0, actions).value);
  }

  /**
    Whichever thread locks first, and under every schedule: the prints strictly alternate starting with that
    thread, with its own numbers 1, 3, 5, ... or 2, 4, 6, ...; nobody waits alone with no one left to signal: at
    most one thread is in the wait set and a run is stuck exactly when both threads have returned, which is after
    12n + 2 steps with n prints each.
   */
  lemma {:induction false} AlternationTheorem(n: nat, actions: seq<Action>)
    requires Run(n, actions).Some? && actions != []
    ensures Alternates(n, actions[0].x, |actions|, Run(n, actions).value)
  {
    if n == 0 { NoRoundsAlternate(actions); } else { RoundsAlternate(n, actions); }
  }

  /** The `p`-th print when thread `f` leads. */
  function NthPrint(f: nat, p: nat): (nat, nat)
    requires f < 2
  {
    if p % 2 == 0 then (f, 1 + f + p) else (1 - f, 1 - f + p)
  }

  lemma {:induction false} AlternatingAt(f: nat, r: nat, p: nat)
    requires f < 2 && p < |Alternating(f, r)|
    ensures Alternating(f, r)[p] == NthPrint(f, p)
  {
    AlternatingLength(f, r - 1);
    if p < 2 * (r - 1) { AlternatingAt(f, r - 1, p); }
  }

  lemma OutAlternates(n: nat, actions: seq<Action>)
    requires Run(n, actions).Some? && actions != []
    ensures actions[0].x < 2 && Run(n, actions).value.out <= Alternating(actions[0].x, n)
  {
    AlternationTheorem(n, actions);
  }

  lemma NthOf(f: nat, n: nat, out: seq<(nat, nat)>, p: nat)
    requires f < 2 && out <= Alternating(f, n) && p < |out|
    ensures out[p] == NthPrint(f, p)
  {
    AlternatingAt(f, n, p);
  }

  /**
    In other words: every second number printed is the first thread's, which counts up in twos from 1 if it is the
    odd thread and from 2 if it is the even one, and those in between are the other's.
   */
  lemma PrintsInTurn(n: nat, actions: seq<Action>, p: nat)
    requires Run(n, actions).Some? && actions != [] && p < |Run(n, actions).value.out|
    ensures var f, out := actions[0].x, Run(n, actions).value.out;
            f < 2 && out[p] == if p % 2 == 0 then (f, 1 + f + p) else (1 - f, 1 - f + p)
  {
    OutAlternates(n, actions);
    NthOf(actions[0].x, n, Run(n, actions).value.out, p);
  }

  /** When foo1 starts, the numbers printed are simply 1, 2, 3, ... */
  lemma CountsUp(n: nat, actions: seq<Action>, p: nat)
    requires Run(n, actions).Some? && actions != [] && actions[0].x == 0 && p < |Run(n, actions).value.out|
    ensures Run(n, actions).value.out[p] == (p % 2, p + 1)
  {
    PrintsInTurn(n, actions, p);
  }

  // ----- The program, its shared variables updated in place

  class Program {
    const n: nat
    var pc: seq<Pc>
    var rounds: seq<nat>
    var counter: seq<nat>
    var owner: Option<nat>
    var waiting: set<nat>
    var out: seq<(nat, nat)>
    ghost var actions: seq<Action>

    function Snapshot(): State
      reads this
    {
      State(pc, rounds, counter, owner, waiting, out)
    }

    ghost predicate Valid()
      reads this
    {
      Run(n, actions) == Some(Snapshot())
    }

    constructor (n: nat)
      ensures Valid() && actions == [] && this.n == n
    {
      this.n := n;
      var head := if 0 < n then Lock else Final;
      pc, rounds, counter := [head, head], [0, 0], [1, 2];
      owner, waiting, out := None, {}, [];
      actions := [];
    }

    /** `pthread_cond_signal`, waking `w` if anyone waits. */
    method Signal(w: nat)
      requires waiting == {} || (w in waiting && w < |pc|)
      modifies this`waiting, this`pc
      ensures if old(waiting) == {} then waiting == old(waiting) && pc == old(pc)
              else waiting == old(waiting) - {w} && pc == old(pc)[w := Woken]
    {
      if waiting != {} {
        waiting := waiting - {w};
        pc := pc[w := Woken];
      }
    }

    /** Thread `x` runs up to its next library call; a signal it sends wakes `w`. */
    method Move(x: nat, w: nat) returns (ran: bool)
      requires Valid() && x < 2
      modifies this
      ensures Valid()
      ensures ran <==> Step(n, old(Snapshot()), Action(x, w)).Some?
      ensures if ran then actions == old(actions) + [Action(x, w)]
              else actions == old(actions) && Snapshot() == old(Snapshot())
    {
      ran := true;
      match pc[x] {
        case Lock =>
          if owner.Some? { return false; }
          owner, pc := Some(x), pc[x := Print];
        case Print =>
          out := out + [(x, counter[x])];
          counter := counter[x := counter[x] + 2];
          pc := pc[x := Pc.Signal];
        case Signal =>
          if waiting != {} && w !in waiting { return false; }
          pc := pc[x := Wait];
          Signal(w);
        case Wait =>
          owner, waiting := None, waiting + {x};
          pc := pc[x := Waiting];
        case Woken =>
          if owner.Some? { return false; }
          owner, pc := Some(x), pc[x := Unlock];
        case Unlock =>
          owner := None;
          rounds := rounds[x := rounds[x] + 1];
          pc := pc[x := if rounds[x] < n then Lock else Final];
        case Final =>
          if waiting != {} && w !in waiting { return false; }
          pc := pc[x := Returned];
          Signal(w);
        case _ => return false;
      }
      assert Some(Snapshot()) == Step(n, old(Snapshot()), Action(x, w));
      actions := actions + [Action(x, w)];
      assert actions[..|actions| - 1] == old(actions);
    }

    /** However the threads have been scheduled, the prints so far alternate, from whoever locked first. */
    lemma AlternatingSoFar()
      requires Valid() && actions != []
      ensures actions[0].x < 2 && out <= Alternating(actions[0].x, n) && |actions| <= 12 * n + 2
      ensures Stuck(n, Snapshot()) <==> Everyone(pc, Returned)
    {
      AlternationTheorem(n, actions);
    }

    predicate Enabled(x: nat, w: nat)
      reads this
      requires Shaped(Snapshot())
    {
      Step(n, Snapshot(), Action(x, w)).Some?
    }

    lemma SomeoneIsEnabled()
      requires Valid() && !Everyone(pc, Returned)
      ensures exists x, w :: 0 <= x < 2 && 0 <= w < 2 && Enabled(x, w)
    {
      if actions == [] {
        assert Enabled(0, 0);
      } else {
        AlternatingSoFar();
        var a: Action :| Step(n, Snapshot(), a).Some?;
        var w := if a.w < 2 then a.w else 0;
        assert Enabled(a.x, w);
      }
    }

    lemma NotReturned()
      requires Valid() && actions == []
      ensures !Everyone(pc, Returned)
    {
      assert Snapshot() == Init(n) && pc[0] != Returned;
    }

    /** The threads run in any order until both have returned: `n` prints each, in alternation. */
    method RunAll()
      requires Valid()
      modifies this
      ensures Valid() && Everyone(pc, Returned)
      ensures actions != [] && actions[0].x < 2 && out == Alternating(actions[0].x, n) && |out| == 2 * n
    {
      if actions != [] { AlternatingSoFar(); }
      while !Everyone(pc, Returned)
        invariant Valid() && |actions| <= 12 * n + 2
        decreases 12 * n + 2 - |actions|
      {
        SomeoneIsEnabled();
        var x, w :| 0 <= x < 2 && 0 <= w < 2 && Enabled(x, w);
        var ran := Move(x, w);
        AlternatingSoFar();
      }
      if actions == [] { NotReturned(); }
      AlternationTheorem(n, actions);
      AlternatingLength(actions[0].x, n);
    }
  }
}
