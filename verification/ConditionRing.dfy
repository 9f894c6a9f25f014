/**
  Three threads that take turns through three condition variables and one mutex, for any number `k` of threads
  and `n` rounds.

  Thread `x` loops: lock, print the shared number and increment it, signal the next thread's condition, wait on
  its own, unlock. After the loop it signals every condition. No loop re-checks a predicate, so everything depends
  on who is waiting at the moment of each signal: wait sets are explicit, a signal wakes exactly one waiter and
  there are no spurious wake-ups. The first thread to lock is called the leader: 0 in the order the program means,
  any other in a rotation of that order.
 */
module ConditionRing {
  import opened Options
  import opened TurnOrder
  import SemaphoreRing

  datatype Pc =
    | Lock | Print | Signal | Wait
    | Waiting              // in a wait set
    | Woken                // signalled, must get the mutex back
    | Unlock
    | Final(c: nat)        // after the loop, about to signal condition c
    | Returned

  datatype State = State(
    pc: seq<Pc>,
    rounds: seq<nat>,              // completed iterations
    owner: Option<nat>,            // of the mutex
    waiting: seq<set<nat>>,        // wait set of each condition
    next: nat,                     // global_var
    out: seq<(nat, nat)>)          // (thread, number) printed

  /** Thread `x` moves; if it signals and someone waits, `w` is woken. */
  datatype Action = Action(x: nat, w: nat)

  predicate Shaped(k: nat, s: State) {
    && 1 < k && |s.pc| == k && |s.rounds| == k && |s.waiting| == k
    && forall c :: 0 <= c < k ==> forall w <- s.waiting[c] :: w < k
  }

  function Init(k: nat, n: nat): State {
    State(seq(k, _ => LoopHead(n, 0, Lock, Final(0))), seq(k, _ => 0), None, seq(k, _ => {}), 1, [])
  }

  /** `pthread_cond_signal`: without effect when nobody waits. `None` when `w` is not one of those who do. */
  function CondSignal(k: nat, s: State, c: nat, w: nat): (r: Option<State>)
    requires Shaped(k, s) && c < k
    ensures r.Some? ==> Shaped(k, r.value)
  {
    if s.waiting[c] == {} then Some(s)
    else if w in s.waiting[c] then
      Some(s.(waiting := s.waiting[c := s.waiting[c] - {w}], pc := s.pc[w := Woken]))
    else None
  }

  function Step(k: nat, n: nat, s: State, a: Action): (r: Option<State>)
    requires Shaped(k, s)
    ensures r.Some? ==> Shaped(k, r.value)
  {
    var x := a.x;
    if x >= k then None else
    match s.pc[x]
    case Lock => if s.owner.Some? then None else Some(s.(owner := Some(x), pc := s.pc[x := Print]))
    case Print => Some(s.(out := s.out + [(x, s.next)], next := s.next + 1, pc := s.pc[x := Signal]))
    case Signal => CondSignal(k, s.(pc := s.pc[x := Wait]), Succ(k, x), a.w)
    case Wait => Some(s.(owner := None, waiting := s.waiting[x := s.waiting[x] + {x}], pc := s.pc[x := Waiting]))
    case Waiting => None
    case Woken => if s.owner.Some? then None else Some(s.(owner := Some(x), pc := s.pc[x := Unlock]))
    case Unlock =>
      Some(s.(owner := None, rounds := s.rounds[x := s.rounds[x] + 1],
              pc := s.pc[x := LoopHead(n, s.rounds[x] + 1, Lock, Final(0))]))
    case Final(c) =>
      if c >= k then None
      else CondSignal(k, s.(pc := s.pc[x := if c + 1 < k then Final(c + 1) else Returned]), c, a.w)
    case Returned => None
  }

  predicate NotStarted(s: State, x: nat)
    requires x < |s.pc| && x < |s.rounds|
  {
    s.pc[x] == Lock && s.rounds[x] == 0
  }

  /** Position `i` of the ring counted from thread `l`, and back. */
  function Who(k: nat, l: nat, i: nat): (x: nat)
    ensures l < k && i < k ==> x < k
  {
    if l + i < k then l + i else l + i - k
  }

  function Pos(k: nat, l: nat, x: nat): (i: nat)
    requires l < k
    ensures x < k ==> i < k && Who(k, l, i) == x
  {
    if l <= x then x - l else x + k - l
  }

  /**
    A thread first locks after all earlier ones have, counted from the leader. With leader 0 this is the start order
    that the `usleep` calls are there for.
   */
  predicate StartsInOrder(k: nat, l: nat, s: State, x: nat)
    requires Shaped(k, s) && l < k
  {
    x < k && NotStarted(s, x) ==> forall y :: 0 <= y < k && Pos(k, l, y) < Pos(k, l, x) ==> !NotStarted(s, y)
  }

  function OrderedStep(k: nat, l: nat, n: nat, s: State, a: Action): (r: Option<State>)
    requires Shaped(k, s) && l < k
    ensures r.Some? ==> Shaped(k, r.value)
  {
    if StartsInOrder(k, l, s, a.x) then Step(k, n, s, a) else None
  }

  /** A run that respects the start order. */
  function OrderedRun(k: nat, l: nat, n: nat, actions: seq<Action>): (r: Option<State>)
    requires 1 < k && l < k
    ensures r.Some? ==> Shaped(k, r.value)
  {
    if actions == [] then Some(Init(k, n))
    else
      var before := OrderedRun(k, l, n, actions[..|actions| - 1]);
      if before.None? then None else OrderedStep(k, l, n, before.value, actions[|actions| - 1])
  }

  /** What is printed when the positions counted from `l` print in the order `turns`: each the next number. */
  function Numbered(k: nat, l: nat, turns: seq<nat>): (out: seq<(nat, nat)>)
    ensures |out| == |turns|
  {
    seq(|turns|, p requires 0 <= p < |turns| => (Who(k, l, turns[p]), p + 1))
  }

  // ----- The turns

  /** The thread at position `i` has the turn in round `r`. */
  datatype Turn = Turn(r: nat, i: nat, stage: Pc)

  predicate Proper(k: nat, l: nat, n: nat, t: Turn) {
    && 1 < k && l < k && t.i < k && t.r < n
    && t.stage in {Lock, Print, Signal, Wait, Woken, Unlock}
    && (t.stage in {Woken, Unlock} ==> t.r > 0)
  }

  /** For the thread at position `x`. */
  function RoundsAt(t: Turn, x: nat): nat {
    if x < t.i then t.r
    else if x == t.i then (if t.stage in {Woken, Unlock} && t.r > 0 then t.r - 1 else t.r)
    else if t.r == 0 then 0 else t.r - 1
  }

  /** The thread that has just been signalled while the signaller is still about to wait. */
  predicate JustWoken(k: nat, t: Turn, x: nat)
    requires t.i < k
  {
    t.stage == Wait && x == Succ(k, t.i) && (t.r > 0 || t.i + 1 == k)
  }

  function PcAt(k: nat, t: Turn, x: nat): Pc
    requires t.i < k
  {
    if x == t.i then t.stage
    else if JustWoken(k, t, x) then Woken
    else if x < t.i || t.r > 0 then Waiting
    else Lock
  }

  /** The thread with the turn. */
  function Mover(k: nat, l: nat, t: Turn): (x: nat)
    requires l < k && t.i < k
    ensures x < k && Pos(k, l, x) == t.i
  {
    Who(k, l, t.i)
  }

  function OutAt(k: nat, t: Turn): seq<nat> {
    if t.stage in {Signal, Wait} then Turns(k, t.r, t.i + 1) else Turns(k, t.r, t.i)
  }

  function Place(k: nat, l: nat, t: Turn): (s: State)
    requires 1 < k && l < k && t.i < k
    ensures Shaped(k, s)
  {
    State(
      seq(k, x requires 0 <= x < k => PcAt(k, t, Pos(k, l, x))),
      seq(k, x requires 0 <= x < k => RoundsAt(t, Pos(k, l, x))),
      if t.stage in {Print, Signal, Wait, Unlock} then Some(Mover(k, l, t)) else None,
      seq(k, x requires 0 <= x < k => if PcAt(k, t, Pos(k, l, x)) == Waiting then {x} else {}),
      |OutAt(k, t)| + 1,
      Numbered(k, l, OutAt(k, t)))
  }

  predicate LastOfAll(k: nat, n: nat, t: Turn) {
    t.r + 1 == n && t.i + 1 == k && t.stage == Wait
  }

  function NextTurn(k: nat, l: nat, n: nat, t: Turn): (t': Turn)
    requires Proper(k, l, n, t) && !LastOfAll(k, n, t)
    ensures Proper(k, l, n, t')
  {
    match t.stage
    case Woken => t.(stage := Unlock)
    case Unlock => t.(stage := Lock)
    case Lock => t.(stage := Print)
    case Print => t.(stage := Signal)
    case Signal => t.(stage := Wait)
    case Wait =>
      if t.i + 1 == k then Turn(t.r + 1, 0, Woken)
      else Turn(t.r, t.i + 1, if t.r == 0 then Lock else Woken)
  }

  lemma StateEquals(s: State, s': State)
    requires |s.pc| == |s'.pc| && forall x :: 0 <= x < |s.pc| ==> s.pc[x] == s'.pc[x]
    requires |s.rounds| == |s'.rounds| && forall x :: 0 <= x < |s.rounds| ==> s.rounds[x] == s'.rounds[x]
    requires |s.waiting| == |s'.waiting| && forall x :: 0 <= x < |s.waiting| ==> s.waiting[x] == s'.waiting[x]
    requires s.owner == s'.owner && s.next == s'.next && s.out == s'.out
    ensures s == s'
  {
    assert s.pc == s'.pc && s.rounds == s'.rounds && s.waiting == s'.waiting;
  }

  lemma SuccWho(k: nat, l: nat, i: nat)
    requires l < k && i < k
    ensures Succ(k, Who(k, l, i)) == Who(k, l, Succ(k, i))
  {}

  lemma PrintIsTurn(k: nat, l: nat, n: nat, t: Turn, a: Action)
    requires Proper(k, l, n, t) && a.x == Mover(k, l, t) && t.stage == Print
    ensures Step(k, n, Place(k, l, t), a) == Some(Place(k, l, NextTurn(k, l, n, t)))
  {
    TurnsMore(k, t.r, t.i);
    var s, s' := Step(k, n, Place(k, l, t), a).value, Place(k, l, NextTurn(k, l, n, t));
    assert s.out == s'.out;
    StateEquals(s, s');
  }

  lemma SignalWakesNobody(k: nat, l: nat, n: nat, t: Turn, a: Action)
    requires Proper(k, l, n, t) && a.x == Mover(k, l, t) && t.stage == Signal
    requires Place(k, l, t).waiting[Succ(k, a.x)] == {}
    ensures Step(k, n, Place(k, l, t), a) == Some(Place(k, l, NextTurn(k, l, n, t)))
  {
    SuccWho(k, l, t.i);
    StateEquals(Step(k, n, Place(k, l, t), a).value, Place(k, l, NextTurn(k, l, n, t)));
  }

  lemma SignalWakesNext(k: nat, l: nat, n: nat, t: Turn, a: Action)
    requires Proper(k, l, n, t) && a.x == Mover(k, l, t) && t.stage == Signal
    requires Place(k, l, t).waiting[Succ(k, a.x)] != {} && a.w == Succ(k, a.x)
    ensures Step(k, n, Place(k, l, t), a) == Some(Place(k, l, NextTurn(k, l, n, t)))
  {
    SuccWho(k, l, t.i);
    StateEquals(Step(k, n, Place(k, l, t), a).value, Place(k, l, NextTurn(k, l, n, t)));
  }

  lemma SignalIsTurn(k: nat, l: nat, n: nat, t: Turn, a: Action)
    requires Proper(k, l, n, t) && a.x == Mover(k, l, t) && t.stage == Signal
    ensures Step(k, n, Place(k, l, t), a) ==
            if Place(k, l, t).waiting[Succ(k, a.x)] == {} || a.w == Succ(k, a.x)
            then Some(Place(k, l, NextTurn(k, l, n, t)))
            else None
  {
    if Place(k, l, t).waiting[Succ(k, a.x)] == {} {
      SignalWakesNobody(k, l, n, t, a);
    } else if a.w == Succ(k, a.x) {
      SignalWakesNext(k, l, n, t, a);
    }
  }

  lemma WaitIsTurn(k: nat, l: nat, n: nat, t: Turn, a: Action)
    requires Proper(k, l, n, t) && a.x == Mover(k, l, t) && t.stage == Wait && !LastOfAll(k, n, t)
    ensures Step(k, n, Place(k, l, t), a) == Some(Place(k, l, NextTurn(k, l, n, t)))
  {
    if t.i + 1 == k { TurnsMore(k, t.r, t.i); }
    StateEquals(Step(k, n, Place(k, l, t), a).value, Place(k, l, NextTurn(k, l, n, t)));
  }

  lemma MutexIsTurn(k: nat, l: nat, n: nat, t: Turn, a: Action)
    requires Proper(k, l, n, t) && a.x == Mover(k, l, t) && t.stage in {Lock, Woken, Unlock}
    ensures Step(k, n, Place(k, l, t), a) == Some(Place(k, l, NextTurn(k, l, n, t)))
  {
    StateEquals(Step(k, n, Place(k, l, t), a).value, Place(k, l, NextTurn(k, l, n, t)));
  }

  lemma OthersStay(k: nat, l: nat, n: nat, t: Turn, a: Action)
    requires Proper(k, l, n, t) && a.x != Mover(k, l, t)
    ensures OrderedStep(k, l, n, Place(k, l, t), a) == None
  {
    var s := Place(k, l, t);
    if a.x < k && s.pc[a.x] == Lock && t.stage == Lock {
      assert NotStarted(s, Mover(k, l, t));
    }
  }

  /** The thread with the turn is in order, and what it does when it moves; `None` for an impossible wake-up. */
  lemma OnlyTheTurnMoves(k: nat, l: nat, n: nat, t: Turn, a: Action)
    requires Proper(k, l, n, t) && !LastOfAll(k, n, t) && OrderedStep(k, l, n, Place(k, l, t), a).Some?
    ensures a.x == Mover(k, l, t) && OrderedStep(k, l, n, Place(k, l, t), a) == Some(Place(k, l, NextTurn(k, l, n, t)))
  {
    if a.x != Mover(k, l, t) {
      OthersStay(k, l, n, t, a);
    } else if t.stage == Print {
      PrintIsTurn(k, l, n, t, a);
    } else if t.stage == Signal {
      SignalIsTurn(k, l, n, t, a);
    } else if t.stage == Wait {
      WaitIsTurn(k, l, n, t, a);
    } else {
      MutexIsTurn(k, l, n, t, a);
    }
  }

  lemma TheTurnMoves(k: nat, l: nat, n: nat, t: Turn)
    requires Proper(k, l, n, t)
    ensures OrderedStep(k, l, n, Place(k, l, t), Action(Mover(k, l, t), Succ(k, Mover(k, l, t)))).Some?
  {
    var a := Action(Mover(k, l, t), Succ(k, Mover(k, l, t)));
    assert StartsInOrder(k, l, Place(k, l, t), Mover(k, l, t));
    if t.stage == Signal { SignalIsTurn(k, l, n, t, a); }
  }

  // ----- The final wake-ups

  predicate FinalPc(pc: Pc, k: nat) {
    pc in {Waiting, Woken, Unlock, Returned} || (pc.Final? && pc.c < k)
  }

  /** The leader has left the loop for good, and whoever still waits is on the list it is working through. */
  predicate Finale(k: nat, l: nat, n: nat, s: State) {
    && Shaped(k, s) && l < k
    && s.out == Numbered(k, l, Rounds(k, n))
    && (forall x :: 0 <= x < k ==> FinalPc(s.pc[x], k))
    && (forall x :: 0 <= x < k ==> s.rounds[x] + (if s.pc[x] in {Waiting, Woken, Unlock} then 1 else 0) == n)
    && (forall c :: 0 <= c < k ==> s.waiting[c] == if s.pc[c] == Waiting then {c} else {})
    && (s.owner.Some? ==> s.owner.value < k)
    && (forall x :: 0 <= x < k ==> (s.pc[x] == Unlock <==> s.owner == Some(x)))
    && (forall x :: 0 <= x < k && s.pc[x] == Waiting ==>
          s.pc[l] in {Woken, Unlock} || (s.pc[l].Final? && s.pc[l].c <= x))
  }

  lemma FinaleStarts(k: nat, l: nat, n: nat, t: Turn, a: Action)
    requires Proper(k, l, n, t) && LastOfAll(k, n, t) && OrderedStep(k, l, n, Place(k, l, t), a).Some?
    ensures Finale(k, l, n, OrderedStep(k, l, n, Place(k, l, t), a).value)
  {
    if a.x != Mover(k, l, t) { OthersStay(k, l, n, t, a); }
    TurnsMore(k, t.r, t.i);
    TurnsStart(k, n);
  }

  /** With no rounds at all, the threads go straight to the final wake-ups. */
  lemma NoRounds(k: nat, l: nat)
    requires 1 < k && l < k
    ensures Finale(k, l, 0, Init(k, 0))
  {}

  lemma FinaleMutex(k: nat, l: nat, n: nat, s: State, a: Action)
    requires Finale(k, l, n, s) && a.x < k && !s.pc[a.x].Final? && Step(k, n, s, a).Some?
    ensures Finale(k, l, n, Step(k, n, s, a).value)
  {}

  /** A final signal that nobody waits for. */
  lemma FinaleSignalsNobody(k: nat, l: nat, n: nat, s: State, a: Action)
    requires Finale(k, l, n, s) && a.x < k && s.pc[a.x].Final? && s.pc[s.pc[a.x].c] != Waiting
    ensures Step(k, n, s, a).Some? && Finale(k, l, n, Step(k, n, s, a).value)
  {}

  /** A final signal that wakes the thread waiting on its condition. */
  lemma FinaleSignalsOne(k: nat, l: nat, n: nat, s: State, a: Action)
    requires Finale(k, l, n, s) && a.x < k && s.pc[a.x].Final? && s.pc[s.pc[a.x].c] == Waiting
    requires Step(k, n, s, a).Some?
    ensures Finale(k, l, n, Step(k, n, s, a).value)
  {
    var c := s.pc[a.x].c;
    var s' := Step(k, n, s, a).value;
    assert a.w == c && s'.pc[c] == Woken;
    assert forall x :: 0 <= x < k && x != a.x && x != c ==> s'.pc[x] == s.pc[x];
  }

  lemma FinaleKept(k: nat, l: nat, n: nat, s: State, a: Action)
    requires Finale(k, l, n, s) && Step(k, n, s, a).Some?
    ensures Finale(k, l, n, Step(k, n, s, a).value)
  {
    if s.pc[a.x].Final? {
      if s.pc[s.pc[a.x].c] == Waiting {
        FinaleSignalsOne(k, l, n, s, a);
      } else {
        FinaleSignalsNobody(k, l, n, s, a);
      }
    } else {
      FinaleMutex(k, l, n, s, a);
    }
  }

  /** While someone has not returned, someone can move: no wake-up is ever missing. */
  lemma FinaleMoves(k: nat, l: nat, n: nat, s: State) returns (a: Action)
    requires Finale(k, l, n, s) && exists x :: 0 <= x < k && s.pc[x] != Returned
    ensures OrderedStep(k, l, n, s, a).Some?
  {
    var x: nat :| x < k && s.pc[x] != Returned;
    if s.owner.Some? {
      x := s.owner.value;
    } else if s.pc[x] == Waiting {
      x := l;
    }
    a := Action(x, if s.pc[x].Final? then s.pc[x].c else 0);
  }

  // ----- Termination

  /** Steps a thread can still take in the finale. */
  function Weight(k: nat, pc: Pc): nat {
    match pc
    case Waiting => k + 4
    case Woken => k + 3
    case Unlock => k + 2
    case Final(c) => if c < k then k - c + 1 else 0
    case _ => 0
  }

  function TotalWeight(k: nat, pcs: seq<Pc>): nat {
    if pcs == [] then 0 else Weight(k, pcs[0]) + TotalWeight(k, pcs[1..])
  }

  lemma {:induction false} TotalWeightUpdate(k: nat, pcs: seq<Pc>, x: nat, pc: Pc)
    requires x < |pcs|
    ensures TotalWeight(k, pcs[x := pc]) + Weight(k, pcs[x]) == TotalWeight(k, pcs) + Weight(k, pc)
  {
    if x == 0 {
      assert pcs[x := pc][1..] == pcs[1..];
    } else {
      assert pcs[x := pc][1..] == pcs[1..][x - 1 := pc];
      TotalWeightUpdate(k, pcs[1..], x - 1, pc);
    }
  }

  lemma {:induction false} TotalWeightBound(k: nat, pcs: seq<Pc>)
    ensures TotalWeight(k, pcs) <= |pcs| * (k + 4)
  {
    if pcs != [] {
      TotalWeightBound(k, pcs[1..]);
      assert |pcs| * (k + 4) == (|pcs| - 1) * (k + 4) + (k + 4);
    }
  }

  lemma SignalDescends(k: nat, pcs: seq<Pc>, x: nat, c: nat)
    requires x < |pcs| && c < |pcs| && c < k && pcs[x] == Final(c) && pcs[c] == Waiting
    ensures TotalWeight(k, pcs[x := if c + 1 < k then Final(c + 1) else Returned][c := Woken]) < TotalWeight(k, pcs)
  {
    var mine := if c + 1 < k then Final(c + 1) else Returned;
    TotalWeightUpdate(k, pcs, x, mine);
    TotalWeightUpdate(k, pcs[x := mine], c, Woken);
  }

  /** Nobody is woken by this step. */
  predicate OnlyMover(s: State, a: Action)
    requires a.x < |s.pc|
  {
    s.pc[a.x].Final? ==> s.pc[a.x].c < |s.pc| && s.pc[s.pc[a.x].c] != Waiting
  }

  lemma MoverDescends(k: nat, l: nat, n: nat, s: State, a: Action)
    requires Finale(k, l, n, s) && Step(k, n, s, a).Some? && OnlyMover(s, a)
    ensures var pc' := Step(k, n, s, a).value.pc;
            |pc'| == k && pc' == s.pc[a.x := pc'[a.x]] && Weight(k, pc'[a.x]) < Weight(k, s.pc[a.x])
  {}

  lemma FinaleDescends(k: nat, l: nat, n: nat, s: State, a: Action)
    requires Finale(k, l, n, s) && Step(k, n, s, a).Some?
    ensures TotalWeight(k, Step(k, n, s, a).value.pc) < TotalWeight(k, s.pc)
  {
    var x := a.x;
    if OnlyMover(s, a) {
      MoverDescends(k, l, n, s, a);
      TotalWeightUpdate(k, s.pc, x, Step(k, n, s, a).value.pc[x]);
    } else {
      SignalDescends(k, s.pc, x, s.pc[x].c);
    }
  }

  function StageIndex(stage: Pc): nat {
    match stage
    case Woken => 0 case Unlock => 1 case Lock => 2 case Print => 3 case Signal => 4 case _ => 5
  }

  datatype Progress = InTurn(t: Turn) | InFinale

  predicate At(k: nat, l: nat, n: nat, s: State, p: Progress) {
    match p
    case InTurn(t) => Proper(k, l, n, t) && s == Place(k, l, t)
    case InFinale => Finale(k, l, n, s)
  }

  function Left(k: nat, l: nat, n: nat, s: State, p: Progress): int
    requires At(k, l, n, s, p)
  {
    match p
    case InTurn(t) => Quota(6 * k, n - t.r) - 6 * t.i - StageIndex(t.stage) + k * (k + 4)
    case InFinale => TotalWeight(k, s.pc)
  }

  lemma LeftIsNonNegative(k: nat, l: nat, n: nat, t: Turn)
    requires Proper(k, l, n, t)
    ensures Left(k, l, n, Place(k, l, t), InTurn(t)) >= 0
  {}

  lemma LeavesTurns(k: nat, l: nat, n: nat, t: Turn, a: Action)
    requires Proper(k, l, n, t) && LastOfAll(k, n, t) && OrderedStep(k, l, n, Place(k, l, t), a).Some?
    ensures var s' := OrderedStep(k, l, n, Place(k, l, t), a).value;
            Finale(k, l, n, s') && TotalWeight(k, s'.pc) < Left(k, l, n, Place(k, l, t), InTurn(t))
  {
    FinaleStarts(k, l, n, t, a);
    TotalWeightBound(k, OrderedStep(k, l, n, Place(k, l, t), a).value.pc);
    assert Quota(6 * k, 1) == Quota(6 * k, 0) + 6 * k;
  }

  lemma LeftDrops(k: nat, l: nat, n: nat, t: Turn)
    requires Proper(k, l, n, t) && !LastOfAll(k, n, t)
    ensures var t' := NextTurn(k, l, n, t);
            Left(k, l, n, Place(k, l, t'), InTurn(t')) < Left(k, l, n, Place(k, l, t), InTurn(t))
  {
    assert Quota(6 * k, n - t.r) == Quota(6 * k, n - t.r - 1) + 6 * k;
  }

  lemma Advances(k: nat, l: nat, n: nat, s: State, p: Progress, a: Action) returns (p': Progress)
    requires At(k, l, n, s, p) && OrderedStep(k, l, n, s, a).Some?
    ensures At(k, l, n, OrderedStep(k, l, n, s, a).value, p')
    ensures Left(k, l, n, OrderedStep(k, l, n, s, a).value, p') < Left(k, l, n, s, p)
  {
    match p
    case InTurn(t) =>
      if LastOfAll(k, n, t) {
        LeavesTurns(k, l, n, t, a);
        p' := InFinale;
      } else {
        OnlyTheTurnMoves(k, l, n, t, a);
        LeftDrops(k, l, n, t);
        p' := InTurn(NextTurn(k, l, n, t));
      }
    case InFinale =>
      FinaleKept(k, l, n, s, a);
      FinaleDescends(k, l, n, s, a);
      p' := InFinale;
  }

  lemma StartsAt(k: nat, l: nat, n: nat) returns (p: Progress)
    requires 1 < k && l < k
    ensures At(k, l, n, Init(k, n), p)
    ensures Left(k, l, n, Init(k, n), p) <= 6 * k * n + k * (k + 4)
  {
    QuotaIs(6 * k, n);
    if n == 0 {
      NoRounds(k, l);
      TotalWeightBound(k, Init(k, n).pc);
      p := InFinale;
    } else {
      p := InTurn(Turn(0, 0, Lock));
      StateEquals(Init(k, n), Place(k, l, p.t));
    }
  }

  lemma {:induction false} RunsProgress(k: nat, l: nat, n: nat, actions: seq<Action>) returns (p: Progress)
    requires 1 < k && l < k && OrderedRun(k, l, n, actions).Some?
    ensures At(k, l, n, OrderedRun(k, l, n, actions).value, p)
    ensures |actions| + Left(k, l, n, OrderedRun(k, l, n, actions).value, p) <= 6 * k * n + k * (k + 4)
  {
    if actions == [] {
      p := StartsAt(k, l, n);
    } else {
      var front := actions[..|actions| - 1];
      var before := RunsProgress(k, l, n, front);
      p := Advances(k, l, n, OrderedRun(k, l, n, front).value, before, actions[|actions| - 1]);
    }
  }

  // ----- What the ring guarantees

  predicate AllPrinted(k: nat, l: nat, n: nat, s: State) {
    s.out == Numbered(k, l, Rounds(k, n))
  }

  ghost predicate Stuck(k: nat, l: nat, n: nat, s: State)
    requires Shaped(k, s) && l < k
  {
    forall a :: OrderedStep(k, l, n, s, a).None?
  }

  lemma NumberedPrefix(k: nat, l: nat, turns: seq<nat>, all: seq<nat>)
    requires turns <= all
    ensures Numbered(k, l, turns) <= Numbered(k, l, all)
  {}

  /** Until the final wake-ups exactly one thread can move. */
  lemma OneRunner(k: nat, l: nat, n: nat, actions: seq<Action>, a: Action, b: Action)
    requires 1 < k && l < k && OrderedRun(k, l, n, actions).Some?
    requires var s := OrderedRun(k, l, n, actions).value;
             !AllPrinted(k, l, n, s) && OrderedStep(k, l, n, s, a).Some? && OrderedStep(k, l, n, s, b).Some?
    ensures a.x == b.x
  {
    var p := RunsProgress(k, l, n, actions);
    if a.x != Mover(k, l, p.t) { OthersStay(k, l, n, p.t, a); }
    if b.x != Mover(k, l, p.t) { OthersStay(k, l, n, p.t, b); }
  }

  lemma StuckIsDone(k: nat, l: nat, n: nat, s: State, p: Progress)
    requires Shaped(k, s) && l < k && At(k, l, n, s, p)
    ensures Stuck(k, l, n, s) <==> Everyone(s.pc, Returned)
    ensures Everyone(s.pc, Returned) ==> AllPrinted(k, l, n, s)
  {
    match p
    case InTurn(t) =>
      TheTurnMoves(k, l, n, t);
      assert s.pc[Mover(k, l, t)] != Returned;
    case InFinale =>
      if !Everyone(s.pc, Returned) { var a := FinaleMoves(k, l, n, s); }
  }

  /**
    Under every schedule that respects the start order, or a rotation of it: the numbers 1, 2, 3, ... are printed by
    the threads in the cyclic order, from the leader on, over and over; no run is longer than 6kn + k(k + 4) steps;
    and a run is stuck exactly when every thread has returned, which happens only with all kn numbers printed.
   */
  lemma {:induction false} RingEnds(k: nat, l: nat, n: nat, actions: seq<Action>)
    requires 1 < k && l < k && OrderedRun(k, l, n, actions).Some?
    ensures var s := OrderedRun(k, l, n, actions).value;
            && s.out <= Numbered(k, l, Rounds(k, n))
            && |actions| <= 6 * k * n + k * (k + 4)
            && (Stuck(k, l, n, s) <==> Everyone(s.pc, Returned))
            && (Stuck(k, l, n, s) ==> AllPrinted(k, l, n, s) && |s.out| == k * n)
  {
    RoundsLength(k, n);
    var p := RunsProgress(k, l, n, actions);
    var s := OrderedRun(k, l, n, actions).value;
    StuckIsDone(k, l, n, s, p);
    if p.InTurn? {
      TurnsPrefix(k, p.t.r, p.t.i, n);
      TurnsPrefix(k, p.t.r, p.t.i + 1, n);
      NumberedPrefix(k, l, OutAt(k, p.t), Rounds(k, n));
      LeftIsNonNegative(k, l, n, p.t);
    }
  }

  /** In other words: the numbers count up from 1, the leader prints first and then always the next thread. */
  lemma PrintsCyclically(k: nat, l: nat, n: nat, actions: seq<Action>, p: nat)
    requires 1 < k && l < k && OrderedRun(k, l, n, actions).Some? && p < |OrderedRun(k, l, n, actions).value.out|
    ensures var out := OrderedRun(k, l, n, actions).value.out;
            out[p].1 == p + 1 && if p == 0 then out[0].0 == l else ComesNext(k, out[p - 1].0, out[p].0)
  {
    RingEnds(k, l, n, actions);
    RoundsAreCyclic(k, n, if p == 0 then 0 else p - 1);
  }

  /** The threads of a printed trace, without the numbers. */
  function Threads(out: seq<(nat, nat)>): seq<nat> {
    seq(|out|, p requires 0 <= p < |out| => out[p].0)
  }

  lemma {:induction false} RoundsBelow(k: nat, r: nat, p: nat)
    requires p < |Rounds(k, r)|
    ensures Rounds(k, r)[p] < k
  {
    if p < |Rounds(k, r - 1)| { RoundsBelow(k, r - 1, p); }
  }

  /** Finished runs of the two programs print in the same order, but for the leader; with leader 0, in the same. */
  lemma SameOrderAsSemaphores(k: nat, l: nat, n: nat, actions: seq<Action>, schedule: seq<nat>)
    requires 1 < k && l < k && OrderedRun(k, l, n, actions).Some?
    requires Stuck(k, l, n, OrderedRun(k, l, n, actions).value)
    requires SemaphoreRing.Run(k, n, schedule).Some?
    requires SemaphoreRing.Stuck(k, n, SemaphoreRing.Run(k, n, schedule).value)
    ensures var mine := Threads(OrderedRun(k, l, n, actions).value.out);
            var theirs := SemaphoreRing.Run(k, n, schedule).value.out;
            && |mine| == |theirs| && (forall p :: 0 <= p < |mine| ==> mine[p] == Who(k, l, theirs[p]))
            && (l == 0 ==> mine == theirs)
  {
    RingEnds(k, l, n, actions);
    SemaphoreRing.RingEnds(k, n, schedule);
    forall p | 0 <= p < |Rounds(k, n)| ensures Rounds(k, n)[p] < k { RoundsBelow(k, n, p); }
  }

  // ----- Any start order

  /** A run under any schedule at all. */
  function Run(k: nat, n: nat, actions: seq<Action>): (r: Option<State>)
    requires 1 < k
    ensures r.Some? ==> Shaped(k, r.value)
  {
    if actions == [] then Some(Init(k, n))
    else
      var before := Run(k, n, actions[..|actions| - 1]);
      if before.None? then None else Step(k, n, before.value, actions[|actions| - 1])
  }

  /** Every thread first locked after all earlier ones had. */
  predicate StartedInOrder(k: nat, l: nat, n: nat, actions: seq<Action>)
    requires 1 < k && l < k && Run(k, n, actions).Some?
  {
    actions == [] ||
    (var front := actions[..|actions| - 1];
     StartedInOrder(k, l, n, front) && StartsInOrder(k, l, Run(k, n, front).value, actions[|actions| - 1].x))
  }

  lemma {:induction false} InOrderIsOrdered(k: nat, l: nat, n: nat, actions: seq<Action>)
    requires 1 < k && l < k && Run(k, n, actions).Some? && StartedInOrder(k, l, n, actions)
    ensures OrderedRun(k, l, n, actions) == Run(k, n, actions)
  {
    if actions != [] { InOrderIsOrdered(k, l, n, actions[..|actions| - 1]); }
  }

  /** A thread that first locks before an earlier one has the mutex alone; everyone else has not begun or waits. */
  predicate Usurped(k: nat, l: nat, n: nat, s: State, i: nat, x: nat) {
    && Shaped(k, s) && l < k && x < k && i < Pos(k, l, x) && 0 < n
    && s.owner == Some(x) && s.pc[x] == Print
    && (forall y :: 0 <= y < k && y != x ==> s.pc[y] in {Lock, Waiting})
    && s.out == Numbered(k, l, Turns(k, 0, i))
  }

  lemma OutOfOrderUsurps(k: nat, l: nat, n: nat, actions: seq<Action>, a: Action) returns (i: nat)
    requires 1 < k && l < k && OrderedRun(k, l, n, actions).Some?
    requires var s := OrderedRun(k, l, n, actions).value; !StartsInOrder(k, l, s, a.x) && Step(k, n, s, a).Some?
    ensures Usurped(k, l, n, Step(k, n, OrderedRun(k, l, n, actions).value, a).value, i, a.x)
  {
    var p := RunsProgress(k, l, n, actions);
    i := p.t.i;
  }

  /** The only step from there is a print out of turn. */
  lemma UsurperPrints(k: nat, l: nat, n: nat, s: State, i: nat, x: nat, b: Action)
    requires Usurped(k, l, n, s, i, x)
    ensures b.x == x <==> Step(k, n, s, b).Some?
    ensures b.x == x ==> !(Step(k, n, s, b).value.out <= Numbered(k, l, Rounds(k, n)))
  {
    if b.x == x {
      var out := Step(k, n, s, b).value.out;
      TurnsPrefix(k, 0, i + 1, n);
      TurnsMore(k, 0, i);
      assert Rounds(k, n)[i] == i;
      assert |out| == i + 1 && out[i].0 == x && Who(k, l, i) != x;
    }
  }

  lemma OutGrows(k: nat, n: nat, s: State, a: Action)
    requires Shaped(k, s) && Step(k, n, s, a).Some?
    ensures s.out <= Step(k, n, s, a).value.out
  {}

  /** Once a thread has started out of order, the next step and all after it leave a misprint behind. */
  lemma {:induction false} OutOfOrderMisprints(k: nat, l: nat, n: nat, actions: seq<Action>) returns (i: nat, x: nat)
    requires 1 < k && l < k && Run(k, n, actions).Some? && !StartedInOrder(k, l, n, actions)
    ensures var s := Run(k, n, actions).value; Usurped(k, l, n, s, i, x) || !(s.out <= Numbered(k, l, Rounds(k, n)))
  {
    var front, a := actions[..|actions| - 1], actions[|actions| - 1];
    if StartedInOrder(k, l, n, front) {
      InOrderIsOrdered(k, l, n, front);
      i := OutOfOrderUsurps(k, l, n, front, a);
      x := a.x;
    } else {
      i, x := OutOfOrderMisprints(k, l, n, front);
      var s := Run(k, n, front).value;
      if Usurped(k, l, n, s, i, x) { UsurperPrints(k, l, n, s, i, x, a); }
      OutGrows(k, n, s, a);
    }
  }

  /** Nobody can move, in whatever order. */
  ghost predicate Halted(k: nat, n: nat, s: State)
    requires Shaped(k, s)
  {
    forall a :: Step(k, n, s, a).None?
  }

  /**
    The start order is exactly what the program needs: a run that has come to its end, under any schedule, has
    printed 1, 2, 3, ... in the cyclic order from a leader if and only if every thread first locked after all
    earlier ones, counted from that leader; and then every thread has returned.
   */
  lemma StartOrderDecides(k: nat, l: nat, n: nat, actions: seq<Action>)
    requires 1 < k && l < k && Run(k, n, actions).Some? && Halted(k, n, Run(k, n, actions).value)
    ensures var s := Run(k, n, actions).value;
            && (AllPrinted(k, l, n, s) <==> StartedInOrder(k, l, n, actions))
            && (AllPrinted(k, l, n, s) ==> Everyone(s.pc, Returned))
  {
    var s := Run(k, n, actions).value;
    if StartedInOrder(k, l, n, actions) {
      InOrderIsOrdered(k, l, n, actions);
      RingEnds(k, l, n, actions);
    } else {
      var i, x := OutOfOrderMisprints(k, l, n, actions);
      if Usurped(k, l, n, s, i, x) { UsurperPrints(k, l, n, s, i, x, Action(x, 0)); }
    }
  }

  // ----- The program, its shared variables updated in place

  class Program {
    const k: nat
    const n: nat
    var pc: seq<Pc>
    var rounds: seq<nat>
    var owner: Option<nat>
    var waiting: seq<set<nat>>
    var globalVar: nat
    var out: seq<(nat, nat)>
    ghost var actions: seq<Action>

    function Snapshot(): State
      reads this
    {
      State(pc, rounds, owner, waiting, globalVar, out)
    }

    ghost predicate Valid()
      reads this
    {
      1 < k && Run(k, n, actions) == Some(Snapshot())
    }

    constructor (k: nat, n: nat)
      requires 1 < k
      ensures Valid() && actions == [] && this.k == k && this.n == n
    {
      this.k := k;
      this.n := n;
      pc := seq(k, _ => if 0 < n then Lock else Final(0));
      rounds := seq(k, _ => 0);
      owner := None;
      waiting := seq(k, _ => {});
      globalVar := 1;
      out := [];
      actions := [];
      new;
      StateEquals(Snapshot(), Init(k, n));
    }

    /** `pthread_cond_signal`, waking `w` if anyone waits. */
    method Signal(c: nat, w: nat)
      requires c < |waiting| && (waiting[c] == {} || (w in waiting[c] && w < |pc|))
      modifies this`waiting, this`pc
      ensures if old(waiting)[c] == {} then waiting == old(waiting) && pc == old(pc)
              else waiting == old(waiting)[c := old(waiting)[c] - {w}] && pc == old(pc)[w := Woken]
    {
      if waiting[c] != {} {
        waiting := waiting[c := waiting[c] - {w}];
        pc := pc[w := Woken];
      }
    }

    /** The first half of `pthread_cond_wait`: give up the mutex and join the wait set, in one step. */
    method StartWait(x: nat)
      requires x < |waiting|
      modifies this`owner, this`waiting
      ensures owner == None && waiting == old(waiting)[x := old(waiting)[x] + {x}]
    {
      owner := None;
      waiting := waiting[x := waiting[x] + {x}];
    }

    /** Thread `x` in its loop, from the head to the wait. */
    method LoopMove(x: nat, w: nat) returns (ran: bool)
      requires Shaped(k, Snapshot()) && x < k && pc[x] in {Lock, Print, Pc.Signal, Wait}
      modifies this`pc, this`owner, this`waiting, this`globalVar, this`out
      ensures ran <==> Step(k, n, old(Snapshot()), Action(x, w)).Some?
      ensures Snapshot() == if ran then Step(k, n, old(Snapshot()), Action(x, w)).value else old(Snapshot())
    {
      ran := true;
      match pc[x] {
        case Lock =>
          if owner.Some? { return false; }
          owner, pc := Some(x), pc[x := Print];
        case Print =>
          out := out + [(x, globalVar)];
          globalVar := globalVar + 1;
          pc := pc[x := Pc.Signal];
        case Signal =>
          var c := if x + 1 < k then x + 1 else 0;
          if waiting[c] != {} && w !in waiting[c] { return false; }
          pc := pc[x := Wait];
          Signal(c, w);
        case Wait =>
          StartWait(x);
          pc := pc[x := Waiting];
      }
    }

    /** Thread `x` from its wake-up on, and after the loop. */
    method WakeMove(x: nat, w: nat) returns (ran: bool)
      requires Shaped(k, Snapshot()) && x < k && pc[x] !in {Lock, Print, Pc.Signal, Wait}
      modifies this`pc, this`rounds, this`owner, this`waiting
      ensures ran <==> Step(k, n, old(Snapshot()), Action(x, w)).Some?
      ensures Snapshot() == if ran then Step(k, n, old(Snapshot()), Action(x, w)).value else old(Snapshot())
    {
      ran := true;
      match pc[x] {
        case Woken =>
          if owner.Some? { return false; }
          owner, pc := Some(x), pc[x := Unlock];
        case Unlock =>
          owner := None;
          rounds := rounds[x := rounds[x] + 1];
          pc := pc[x := if rounds[x] < n then Lock else Final(0)];
        case Final(c) =>
          if c >= k || (waiting[c] != {} && w !in waiting[c]) { return false; }
          pc := pc[x := if c + 1 < k then Final(c + 1) else Returned];
          Signal(c, w);
        case _ => return false;
      }
    }

    /** Thread `x` runs up to its next library call; a signal it sends wakes `w`. */
    method Move(x: nat, w: nat) returns (ran: bool)
      requires Valid() && x < k
      modifies this
      ensures Valid()
      ensures ran <==> Step(k, n, old(Snapshot()), Action(x, w)).Some?
      ensures if ran then actions == old(actions) + [Action(x, w)]
              else actions == old(actions) && Snapshot() == old(Snapshot())
    {
      if pc[x] in {Lock, Print, Pc.Signal, Wait} {
        ran := LoopMove(x, w);
      } else {
        ran := WakeMove(x, w);
      }
      if ran {
        actions := actions + [Action(x, w)];
        assert actions[..|actions| - 1] == old(actions);
      }
    }

    /** While threads have started in order, whatever has been printed is right and nobody is stuck too early. */
    lemma InOrderSoFar(l: nat)
      requires Valid() && l < k && StartedInOrder(k, l, n, actions)
      ensures out <= Numbered(k, l, Rounds(k, n)) && |actions| <= 6 * k * n + k * (k + 4)
      ensures Stuck(k, l, n, Snapshot()) <==> Everyone(pc, Returned)
    {
      InOrderIsOrdered(k, l, n, actions);
      RingEnds(k, l, n, actions);
    }

    predicate Enabled(l: nat, x: nat, w: nat)
      reads this
      requires Shaped(k, Snapshot()) && l < k
    {
      OrderedStep(k, l, n, Snapshot(), Action(x, w)).Some?
    }

    lemma SomeoneIsEnabled(l: nat)
      requires Valid() && l < k && StartedInOrder(k, l, n, actions) && !Everyone(pc, Returned)
      ensures exists x, w :: 0 <= x < k && 0 <= w < k && Enabled(l, x, w)
    {
      InOrderSoFar(l);
      var a: Action :| OrderedStep(k, l, n, Snapshot(), a).Some?;
      var w := if a.w < k then a.w else 0;
      assert Enabled(l, a.x, w);
    }

    /** Started in order from `l`, the threads print everything in the cyclic order and return, however scheduled. */
    method RunAll(l: nat)
      requires Valid() && l < k && StartedInOrder(k, l, n, actions)
      modifies this
      ensures Valid() && out == Numbered(k, l, Rounds(k, n)) && |out| == k * n && Everyone(pc, Returned)
    {
      InOrderSoFar(l);
      while !Everyone(pc, Returned)
        invariant Valid() && StartedInOrder(k, l, n, actions)
        invariant |actions| <= 6 * k * n + k * (k + 4)
        decreases 6 * k * n + k * (k + 4) - |actions|
      {
        SomeoneIsEnabled(l);
        var x, w :| 0 <= x < k && 0 <= w < k && Enabled(l, x, w);
        ghost var before := actions;
        var ran := Move(x, w);
        assert actions[..|actions| - 1] == before;
        InOrderSoFar(l);
      }
      InOrderIsOrdered(k, l, n, actions);
      RingEnds(k, l, n, actions);
      RoundsLength(k, n);
    }
  }
}
