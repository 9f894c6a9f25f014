/**
  Three threads that take turns through three semaphores, for any number `k` of threads and `n` rounds.

  Thread `x` loops: wait on its own semaphore, print, post the next thread's semaphore.
 */
module SemaphoreRing {
  import opened Options
  import opened TurnOrder

  datatype Pc = SemWait | Print | SemPost | Returned

  datatype State = State(pc: seq<Pc>, rounds: seq<nat>, sem: seq<nat>, out: seq<nat>)

  predicate Shaped(k: nat, s: State) {
    0 < k && |s.pc| == k && |s.rounds| == k && |s.sem| == k
  }

  function Init(k: nat, n: nat): State
    requires 0 < k
  {
    State(seq(k, _ => LoopHead(n, 0, SemWait, Returned)), seq(k, _ => 0), seq(k, x => if x == 0 then 1 else 0), [])
  }

  /** Thread `x` takes its next atomic step; `None` when it is blocked, has returned or does not exist. */
  function Step(k: nat, n: nat, s: State, x: nat): (r: Option<State>)
    requires Shaped(k, s)
    ensures r.Some? ==> Shaped(k, r.value)
  {
    if x >= k then None else
    match s.pc[x]
    case SemWait =>
      if s.sem[x] == 0 then None
      else Some(s.(pc := s.pc[x := Print], sem := s.sem[x := s.sem[x] - 1]))
    case Print => Some(s.(pc := s.pc[x := SemPost], out := s.out + [x]))
    case SemPost =>
      var y := Succ(k, x);
      Some(s.(pc := s.pc[x := LoopHead(n, s.rounds[x] + 1, SemWait, Returned)],
              rounds := s.rounds[x := s.rounds[x] + 1],
              sem := s.sem[y := s.sem[y] + 1]))
    case Returned => None
  }

  /** The state a schedule leads to, if every scheduled thread can move when its time comes. */
  function Run(k: nat, n: nat, schedule: seq<nat>): (r: Option<State>)
    requires 0 < k
    ensures r.Some? ==> Shaped(k, r.value)
  {
    if schedule == [] then Some(Init(k, n))
    else
      var before := Run(k, n, schedule[..|schedule| - 1]);
      if before.None? then None else Step(k, n, before.value, schedule[|schedule| - 1])
  }

  // ----- Whose turn it is

  /** Thread `i` is in its round `r`, about to do `stage`; `r == n` when all have returned. */
  datatype Turn = Turn(r: nat, i: nat, stage: Pc)

  predicate Proper(k: nat, n: nat, t: Turn) {
    && t.i < k && t.r <= n
    && (t.r == n ==> t.i == 0)
    && (t.stage == Returned <==> t.r == n)
  }

  function NextTurn(k: nat, n: nat, t: Turn): (t': Turn)
    requires Proper(k, n, t) && t.r < n
    ensures Proper(k, n, t')
  {
    match t.stage
    case SemWait => t.(stage := Print)
    case Print => t.(stage := SemPost)
    case SemPost =>
      if t.i + 1 < k then Turn(t.r, t.i + 1, SemWait)
      else Turn(t.r + 1, 0, LoopHead(n, t.r + 1, SemWait, Returned))
  }

  function RoundsAtTurn(t: Turn, x: nat): nat {
    if x < t.i then t.r + 1 else t.r
  }

  function PcAtTurn(n: nat, t: Turn, x: nat): Pc {
    if x == t.i then t.stage else LoopHead(n, RoundsAtTurn(t, x), SemWait, Returned)
  }

  function SemAtTurn(t: Turn, x: nat): nat {
    if x == t.i && t.stage in {SemWait, Returned} then 1 else 0
  }

  function OutAtTurn(k: nat, t: Turn): seq<nat> {
    if t.stage == SemPost then Turns(k, t.r, t.i + 1) else Turns(k, t.r, t.i)
  }

  function Place(k: nat, n: nat, t: Turn): (s: State)
    requires Proper(k, n, t)
    ensures Shaped(k, s)
  {
    State(seq(k, x requires 0 <= x < k => PcAtTurn(n, t, x)), seq(k, x requires 0 <= x < k => RoundsAtTurn(t, x)),
          seq(k, x requires 0 <= x < k => SemAtTurn(t, x)), OutAtTurn(k, t))
  }

  lemma WaitIsTurn(k: nat, n: nat, t: Turn)
    requires Proper(k, n, t) && t.stage == SemWait
    ensures Step(k, n, Place(k, n, t), t.i) == Some(Place(k, n, NextTurn(k, n, t)))
  {
    var s, s' := Step(k, n, Place(k, n, t), t.i).value, Place(k, n, NextTurn(k, n, t));
    assert s.pc == s'.pc && s.rounds == s'.rounds && s.sem == s'.sem;
  }

  lemma PrintIsTurn(k: nat, n: nat, t: Turn)
    requires Proper(k, n, t) && t.stage == Print
    ensures Step(k, n, Place(k, n, t), t.i) == Some(Place(k, n, NextTurn(k, n, t)))
  {
    TurnsMore(k, t.r, t.i);
    var s, s' := Step(k, n, Place(k, n, t), t.i).value, Place(k, n, NextTurn(k, n, t));
    assert s.pc == s'.pc && s.rounds == s'.rounds && s.sem == s'.sem;
  }

  lemma PostIsTurn(k: nat, n: nat, t: Turn)
    requires Proper(k, n, t) && t.stage == SemPost
    ensures Step(k, n, Place(k, n, t), t.i) == Some(Place(k, n, NextTurn(k, n, t)))
  {
    TurnsMore(k, t.r, t.i);
    var s, s' := Step(k, n, Place(k, n, t), t.i).value, Place(k, n, NextTurn(k, n, t));
    assert s.pc == s'.pc;
    assert s.rounds == s'.rounds;
    assert s.sem == s'.sem;
  }

  /** From the state of any turn exactly one thread can move, and it moves the ring to the next turn. */
  lemma StepIsTurn(k: nat, n: nat, t: Turn, x: nat)
    requires Proper(k, n, t)
    ensures Step(k, n, Place(k, n, t), x) ==
            if x == t.i && t.r < n then Some(Place(k, n, NextTurn(k, n, t))) else None
  {
    if x == t.i && t.r < n {
      match t.stage
      case SemWait => WaitIsTurn(k, n, t);
      case Print => PrintIsTurn(k, n, t);
      case SemPost => PostIsTurn(k, n, t);
    }
  }

  function StageIndex(stage: Pc): nat {
    match stage case SemWait => 0 case Print => 1 case SemPost => 2 case Returned => 0
  }

  /** Steps left until every thread has returned. */
  function Remaining(k: nat, n: nat, t: Turn): int
    requires Proper(k, n, t)
  {
    Quota(3 * k, n - t.r) - 3 * t.i - StageIndex(t.stage)
  }

  lemma RemainingDrops(k: nat, n: nat, t: Turn)
    requires Proper(k, n, t) && t.r < n
    ensures Remaining(k, n, NextTurn(k, n, t)) == Remaining(k, n, t) - 1
    ensures Remaining(k, n, t) > 0
  {}

  lemma StartIsTurn(k: nat, n: nat)
    requires 0 < k
    ensures Init(k, n) == Place(k, n, Turn(0, 0, LoopHead(n, 0, SemWait, Returned)))
  {
    var s, s' := Init(k, n), Place(k, n, Turn(0, 0, LoopHead(n, 0, SemWait, Returned)));
    assert s.pc == s'.pc && s.rounds == s'.rounds && s.sem == s'.sem && s.out == s'.out;
  }

  lemma {:induction false} RunsAreTurns(k: nat, n: nat, schedule: seq<nat>) returns (t: Turn)
    requires 0 < k && Run(k, n, schedule).Some?
    ensures Proper(k, n, t) && Run(k, n, schedule).value == Place(k, n, t)
    ensures |schedule| + Remaining(k, n, t) == Quota(3 * k, n)
  {
    if schedule == [] {
      t := Turn(0, 0, LoopHead(n, 0, SemWait, Returned));
      StartIsTurn(k, n);
    } else {
      var before := RunsAreTurns(k, n, schedule[..|schedule| - 1]);
      StepIsTurn(k, n, before, schedule[|schedule| - 1]);
      RemainingDrops(k, n, before);
      t := NextTurn(k, n, before);
    }
  }

  // ----- What the ring guarantees

  function Sum(xs: seq<nat>): nat {
    if xs == [] then 0 else xs[0] + Sum(xs[1..])
  }

  /** 1 for each thread that has waited and not yet posted. */
  function Between(pc: seq<Pc>): nat {
    if pc == [] then 0 else (if pc[0] in {Print, SemPost} then 1 else 0) + Between(pc[1..])
  }

  lemma {:induction false} SumOneHot(xs: seq<nat>, i: nat)
    requires i < |xs| && forall x :: 0 <= x < |xs| && x != i ==> xs[x] == 0
    ensures Sum(xs) == xs[i]
  {
    if i == 0 {
      SumZero(xs[1..]);
    } else {
      SumOneHot(xs[1..], i - 1);
    }
  }

  lemma {:induction false} SumZero(xs: seq<nat>)
    requires forall x :: 0 <= x < |xs| ==> xs[x] == 0
    ensures Sum(xs) == 0
  {
    if xs != [] { SumZero(xs[1..]); }
  }

  lemma {:induction false} BetweenOneHot(pc: seq<Pc>, i: nat)
    requires i <= |pc| && forall x :: 0 <= x < |pc| && x != i ==> pc[x] !in {Print, SemPost}
    ensures Between(pc) == if i < |pc| && pc[i] in {Print, SemPost} then 1 else 0
  {
    if pc != [] {
      BetweenOneHot(pc[1..], if i == 0 then |pc| - 1 else i - 1);
    }
  }

  /** In every reachable state the semaphore values and the threads between wait and post add up to one. */
  lemma OnePermit(k: nat, n: nat, schedule: seq<nat>)
    requires 0 < k && Run(k, n, schedule).Some?
    ensures var s := Run(k, n, schedule).value; Sum(s.sem) + Between(s.pc) == 1
  {
    var t := RunsAreTurns(k, n, schedule);
    var s := Run(k, n, schedule).value;
    SumOneHot(s.sem, t.i);
    BetweenOneHot(s.pc, t.i);
  }

  predicate Stuck(k: nat, n: nat, s: State)
    requires Shaped(k, s)
  {
    forall x :: 0 <= x < k ==> Step(k, n, s, x).None?
  }

  lemma TurnEnds(k: nat, n: nat, t: Turn)
    requires Proper(k, n, t)
    ensures var s := Place(k, n, t);
            && (Stuck(k, n, s) <==> t.r == n)
            && (Everyone(s.pc, Returned) <==> t.r == n)
            && (t.r == n ==> s.sem == Init(k, n).sem && s.out == Rounds(k, n))
  {
    forall x: nat | x < k ensures Step(k, n, Place(k, n, t), x).None? <==> !(x == t.i && t.r < n) {
      StepIsTurn(k, n, t, x);
    }
    TurnsStart(k, n);
    if t.r < n {
      assert Step(k, n, Place(k, n, t), t.i).Some? && Place(k, n, t).pc[t.i] != Returned;
    }
  }

  /**
    Whatever the schedule, the ring prints in the order 0 1 ... k-1, over and over; it is stuck exactly when every
    thread has returned, which is after exactly 3kn steps, with each thread's n turns printed and the semaphores
    back at (1, 0, ..., 0).
   */
  lemma {:induction false} RingEnds(k: nat, n: nat, schedule: seq<nat>)
    requires 0 < k && Run(k, n, schedule).Some?
    ensures var s := Run(k, n, schedule).value;
            && s.out <= Rounds(k, n)
            && |schedule| <= 3 * k * n
            && (Stuck(k, n, s) <==> Everyone(s.pc, Returned))
            && (Stuck(k, n, s) <==> |schedule| == 3 * k * n)
            && (Stuck(k, n, s) ==> s.out == Rounds(k, n) && |s.out| == k * n && s.sem == Init(k, n).sem)
  {
    var t := RunsAreTurns(k, n, schedule);
    RoundsLength(k, n);
    QuotaIs(3 * k, n);
    TurnEnds(k, n, t);
    TurnsPrefix(k, t.r, t.i, n);
    if t.r < n {
      RemainingDrops(k, n, t);
      TurnsPrefix(k, t.r, t.i + 1, n);
    }
  }

  /** In other words: thread 0 prints first, after thread x prints thread x + 1, and after the last one thread 0. */
  lemma PrintsCyclically(k: nat, n: nat, schedule: seq<nat>, p: nat)
    requires 0 < k && Run(k, n, schedule).Some? && p < |Run(k, n, schedule).value.out|
    ensures var out := Run(k, n, schedule).value.out;
            if p == 0 then out[0] == 0 else ComesNext(k, out[p - 1], out[p])
  {
    RingEnds(k, n, schedule);
    RoundsAreCyclic(k, n, if p == 0 then 0 else p - 1);
  }

  // ----- The program, its semaphores and counters updated in place

  class Program {
    const k: nat
    const n: nat
    var pc: seq<Pc>
    var rounds: seq<nat>
    var sem: seq<nat>
    var out: seq<nat>
    ghost var schedule: seq<nat>

    function Snapshot(): State
      reads this
    {
      State(pc, rounds, sem, out)
    }

    ghost predicate Valid()
      reads this
    {
      0 < k && Run(k, n, schedule) == Some(Snapshot())
    }

    constructor (k: nat, n: nat)
      requires 0 < k
      ensures Valid() && schedule == [] && this.k == k && this.n == n
    {
      this.k := k;
      this.n := n;
      pc := seq(k, _ => if 0 < n then SemWait else Returned);
      rounds := seq(k, _ => 0);
      sem := seq(k, x => if x == 0 then 1 else 0);
      out := [];
      schedule := [];
      new;
      assert pc == Init(k, n).pc;
    }

    /** `sem_wait`, as far as it gets without blocking. */
    method TryWait(x: nat) returns (acquired: bool)
      requires x < |sem|
      modifies this`sem
      ensures acquired <==> old(sem)[x] > 0
      ensures sem == if acquired then old(sem)[x := old(sem)[x] - 1] else old(sem)
    {
      acquired := sem[x] > 0;
      if acquired { sem := sem[x := sem[x] - 1]; }
    }

    method Post(y: nat)
      requires y < |sem|
      modifies this`sem
      ensures sem == old(sem)[y := old(sem)[y] + 1]
    {
      sem := sem[y := sem[y] + 1];
    }

    /** Thread `x` runs up to its next library call. */
    method Move(x: nat) returns (ran: bool)
      requires Valid() && x < k
      modifies this
      ensures Valid()
      ensures ran <==> Step(k, n, old(Snapshot()), x).Some?
      ensures if ran then schedule == old(schedule) + [x]
              else schedule == old(schedule) && Snapshot() == old(Snapshot())
    {
      ran := true;
      match pc[x] {
        case SemWait =>
          ran := TryWait(x);
          if !ran { return; }
          pc := pc[x := Print];
        case Print =>
          out := out + [x];
          pc := pc[x := SemPost];
        case SemPost =>
          Post(if x + 1 < k then x + 1 else 0);
          rounds := rounds[x := rounds[x] + 1];
          pc := pc[x := if rounds[x] < n then SemWait else Returned];
        case Returned => return false;
      }
      assert Some(Snapshot()) == Step(k, n, old(Snapshot()), x);
      schedule := schedule + [x];
      assert schedule[..|schedule| - 1] == old(schedule);
    }

    /** Any object that is only changed through `Move` prints in order and cannot get stuck early. */
    lemma InOrderSoFar()
      requires Valid()
      ensures out <= Rounds(k, n) && |schedule| <= 3 * k * n && Sum(sem) + Between(pc) == 1
      ensures Stuck(k, n, Snapshot()) <==> Everyone(pc, Returned)
    {
      RingEnds(k, n, schedule);
      OnePermit(k, n, schedule);
    }

    /** Whatever order the threads run in, they print all their turns in the cyclic order and return. */
    method RunAll()
      requires Valid()
      modifies this
      ensures Valid() && out == Rounds(k, n) && |out| == k * n && Everyone(pc, Returned)
    {
      InOrderSoFar();
      while !Everyone(pc, Returned)
        invariant Valid() && |schedule| <= 3 * k * n
        decreases 3 * k * n - |schedule|
      {
        InOrderSoFar();
        var x: nat :| x < k && Step(k, n, Snapshot(), x).Some?;
        var ran := Move(x);
        InOrderSoFar();
      }
      RingEnds(k, n, schedule);
    }
  }
}
