/**
  What the grammar says about visitors: how often the bell rings, how retries are counted, how long a visit that
  runs into the 10-minute timer lasts, what opens a ring chain, and what can stop the program for good.

  The closing theorems speak of the words the program can show; the lemmas before them are about the grammar.
 */
module DoorBellVisits {
  import opened Options
  import opened PipeFrames
  import opened DoorBellSystem
  import opened DoorBellToken
  import opened DoorBellRuns
  import opened DoorBellGrammar

  function Count(w: seq<Stamped>, counts: Obs -> bool): nat {
    if w == [] then 0
    else Count(w[..|w| - 1], counts) + IfThenOne(counts(w[|w| - 1].obs))
  }

  lemma CountMore(w: seq<Stamped>, o: Stamped, counts: Obs -> bool)
    ensures Count(w + [o], counts) == Count(w, counts) + IfThenOne(counts(o.obs))
  {
    assert (w + [o])[..|w|] == w;
  }

  const RINGS: Obs -> bool := o => o == Ring
  const WAITS: Obs -> bool := (o: Obs) => o.WaitPosted?
  const RETRIES: Obs -> bool := o => o == WaitPosted(DoorWaitExpiry)
  const RETRY_ENDS: Obs -> bool := o => o == WaitPosted(DoorWaitRetryEnd)
  const VISITORS: Obs -> bool := o => IsVisitor(o)

  /** A working distance sensor reporting 4 to 8. */
  predicate IsVisitor(o: Obs) {
    o.DistanceReading? && o.r.status == 0 && 4 <= o.r.value <= 8
  }

  /** The part of a word after its last successful reboot. */
  function SinceBoot(w: seq<Stamped>): seq<Stamped> {
    if w == [] || w[|w| - 1].obs == Reboot(true) then []
    else SinceBoot(w[..|w| - 1]) + [w[|w| - 1]]
  }

  // ----- Retries and rings, counted

  /** With `n` waits in `u`, the first two asked for another ring and all later ones ended the retries. */
  predicate Tallied(u: seq<Stamped>, n: nat) {
    && Count(u, WAITS) == n
    && Count(u, RETRIES) == (if n < 2 then n else 2)
    && Count(u, RETRY_ENDS) == (if n < 2 then 0 else n - 2)
  }

  /** Which verdict the grammar allows. */
  lemma OneVerdict(p: Phase, o: Stamped)
    requires Next(p, o).Some? && o.obs.WaitPosted?
    ensures o.obs == WaitPosted(if p.expired < 2 then DoorWaitExpiry else DoorWaitRetryEnd)
  {}

  lemma TallyMore(u: seq<Stamped>, p: Phase, o: Stamped)
    requires Tallied(u, p.expired) && Next(p, o).Some? && o.obs != Reboot(true)
    ensures Tallied(u + [o], Next(p, o).value.expired)
  {
    CountMore(u, o, WAITS);
    CountMore(u, o, RETRIES);
    CountMore(u, o, RETRY_ENDS);
    if o.obs.WaitPosted? { OneVerdict(p, o); }
    assert Next(p, o).value.expired == Expired(p.expired, o.obs);
  }

  /**
    With n wait expiries reported since boot, exactly min(n, 2) asked for another ring and max(n - 2, 0) ended the
    retries: the counter is never reset between visitors.
   */
  lemma {:induction false} RetriesAreCumulative(t0: nat, w: seq<Stamped>)
    requires Parse(t0, w).Some?
    ensures Tallied(SinceBoot(w), Parse(t0, w).value.expired)
  {
    if w != [] && w[|w| - 1].obs != Reboot(true) {
      var front := w[..|w| - 1];
      RetriesAreCumulative(t0, front);
      TallyMore(SinceBoot(front), Parse(t0, front).value, w[|w| - 1]);
    }
  }

  /** Every RING_BELL answers a visitor or an expired wait, one for one; at most one is still to be posted. */
  lemma {:induction false} RingsAreAnswers(t0: nat, w: seq<Stamped>)
    requires Parse(t0, w).Some?
    ensures Count(w, RINGS) + IfThenOne(Parse(t0, w).value.next == Ringing) == Count(w, VISITORS) + Count(w, RETRIES)
  {
    if w != [] {
      RingsAreAnswers(t0, w[..|w| - 1]);
    }
  }

  /** What has been shown last asks for a ring: a visitor, or a wait that ended in a retry. */
  predicate AsksForRing(w: seq<Stamped>) {
    |w| > 0 && (IsVisitor(w[|w| - 1].obs) || w[|w| - 1].obs == WaitPosted(DoorWaitExpiry))
  }

  lemma RingingWords(t0: nat, w: seq<Stamped>)
    requires Parse(t0, w).Some?
    ensures Parse(t0, w).value.next == Ringing <==> AsksForRing(w)
  {}

  // ----- What opens a ring chain

  predicate EndsCycle(o: Obs) {
    o == ScanOn || o.Reboot?
  }

  /** `w[j]` is a visitor at the door, right after motion was seen, and no cycle has ended since. */
  predicate OpensChain(w: seq<Stamped>, j: nat) {
    && 0 < j < |w| && IsVisitor(w[j].obs) && w[j - 1].obs == MotionReading(Reading(1, 0))
    && forall k :: j < k < |w| ==> !EndsCycle(w[k].obs)
  }

  lemma {:induction false} ChainIsOpened(t0: nat, w: seq<Stamped>) returns (j: nat)
    requires Parse(t0, w).Some?
    ensures var next := Parse(t0, w).value.next;
            && (next in {Ringing, Rung, AtDoor, DoorOpen, Waiting, CoolingDown} ==> OpensChain(w, j))
            && (next == Measuring ==> w != [] && w[|w| - 1].obs == MotionReading(Reading(1, 0)))
  {
    j := 0;
    if w != [] {
      var front, o := w[..|w| - 1], w[|w| - 1];
      j := ChainIsOpened(t0, front);
      if IsVisitor(o.obs) {
        j := |w| - 1;
      }
    }
  }

  /** A word that ends with a ring had an open chain before it. */
  lemma RingNeedsChain(t0: nat, w: seq<Stamped>, o: Stamped) returns (j: nat)
    requires Parse(t0, w + [o]).Some? && o.obs == Ring
    ensures OpensChain(w, j)
  {
    ParseSplit(t0, w, o);
    j := ChainIsOpened(t0, w);
  }

  // ----- One cycle: its rings and its length

  /** Rings in a cycle that starts with `c` waits already counted and runs out of retries. */
  function FullRings(c: nat): nat {
    if c < 2 then 3 - c else 1
  }

  const RING_SECONDS: nat := 33  // 3 ringing, 30 waiting

  /** The bell has rung `r` times, and the last ring's wait is not counted yet. */
  predicate Pending(p: Phase, c: nat, r: nat) {
    r > 0 && p.expired + 1 == c + r && (r == 1 || p.expired < 3)
  }

  /** What holds inside a cycle that began at time `start` with `c` waits counted, after `r` rings. */
  predicate InCycle(p: Phase, c: nat, start: nat, r: nat) {
    var more := r == 0 || p.expired < 3;
    match p.next
    case Scanning => r == 0 && p.expired == c && start <= p.last
    case Faulty => r == 0
    case Measuring => r == 0 && p.expired == c && start <= p.last
    case Ringing => p.expired == c + r && more && start + RING_SECONDS * r <= p.last
    case Rung => Pending(p, c, r) && start + RING_SECONDS * (r - 1) <= p.last
    case AtDoor => Pending(p, c, r) && start + RING_SECONDS * (r - 1) + BELL_SECONDS <= p.last
    case Waiting => Pending(p, c, r) && start + RING_SECONDS * (r - 1) + BELL_SECONDS <= p.last
    case CoolingDown =>
      r > 0 && p.expired == c + r && p.expired >= 3 && (r == 1 || p.expired == 3) && start + RING_SECONDS * r <= p.last
    case _ => r <= FullRings(c)
  }

  /** `w[i]` starts a cycle and nothing after it starts another. */
  predicate CycleFrom(w: seq<Stamped>, i: nat) {
    && i < |w| && w[i].obs == ScanOn
    && forall k :: i < k < |w| ==> !StartsCycle(w[k].obs)
  }

  lemma CycleStep(p: Phase, o: Stamped, c: nat, start: nat, r: nat)
    requires InCycle(p, c, start, r) && Next(p, o).Some? && !StartsCycle(o.obs)
    ensures InCycle(Next(p, o).value, c, start, r + IfThenOne(o.obs == Ring))
  {}

  lemma CycleFront(w: seq<Stamped>, i: nat)
    requires CycleFrom(w, i) && i < |w| - 1
    ensures CycleFrom(w[..|w| - 1], i) && !StartsCycle(w[|w| - 1].obs)
    ensures w[..|w| - 1][..i] == w[..i] && w[..|w| - 1][i] == w[i]
  {}

  lemma RingsFront(w: seq<Stamped>, i: nat)
    requires i < |w| - 1
    ensures Count(w[i + 1..], RINGS) == Count(w[..|w| - 1][i + 1..], RINGS) + IfThenOne(w[|w| - 1].obs == Ring)
  {
    var front, o := w[..|w| - 1], w[|w| - 1];
    assert w[i + 1..] == front[i + 1..] + [o];
    CountMore(front[i + 1..], o, RINGS);
  }

  lemma {:induction false} CycleSoFar(t0: nat, w: seq<Stamped>, i: nat)
    requires CycleFrom(w, i) && Parse(t0, w).Some?
    ensures Parse(t0, w[..i]).Some?
    ensures InCycle(Parse(t0, w).value, Parse(t0, w[..i]).value.expired, w[i].time, Count(w[i + 1..], RINGS))
    decreases |w|
  {
    if i == |w| - 1 {
      assert w[i + 1..] == [];
    } else {
      var front, o := w[..|w| - 1], w[|w| - 1];
      CycleFront(w, i);
      CycleSoFar(t0, front, i);
      RingsFront(w, i);
      CycleStep(Parse(t0, front).value, o, Parse(t0, w[..i]).value.expired, w[i].time, Count(front[i + 1..], RINGS));
    }
  }

  /** What `CycleSoFar` says once the 10-minute timer has fired. */
  lemma ExhaustedCycle(t0: nat, w: seq<Stamped>, i: nat)
    requires CycleFrom(w, i) && Parse(t0, w).Some? && w[|w| - 1].obs == ResetExpired
    ensures Parse(t0, w[..i]).Some?
    ensures var rings := Count(w[i + 1..], RINGS);
            && rings == FullRings(Parse(t0, w[..i]).value.expired)
            && w[|w| - 1].time - w[i].time >= 33 * rings + 600
  {
    var front, o := w[..|w| - 1], w[|w| - 1];
    assert w == front + [o];
    ParseSplit(t0, front, o);
    CycleSoFar(t0, front, i);
    assert front[..i] == w[..i];
    assert w[i + 1..] == front[i + 1..] + [o];
    CountMore(front[i + 1..], o, RINGS);
  }

  // ----- What stops the program

  /** A door reading right after a ring that is neither open nor closed, or a reboot that returned. */
  predicate EndsForGood(w: seq<Stamped>) {
    || (|w| > 0 && w[|w| - 1].obs == Reboot(false))
    || (|w| > 1 && w[|w| - 2].obs == BellExpired && w[|w| - 1].obs.DoorReading?
        && w[|w| - 1].obs.r.value !in {0, 1})
  }

  lemma {:induction false} StoppedWords(t0: nat, w: seq<Stamped>)
    requires Parse(t0, w).Some?
    ensures Parse(t0, w).value.next == Stopped <==> EndsForGood(w)
    ensures Parse(t0, w).value.next == AtDoor <==> |w| > 0 && w[|w| - 1].obs == BellExpired
    decreases |w|
  {
    if w != [] {
      var front := w[..|w| - 1];
      StoppedWords(t0, front);
      assert |w| > 1 ==> front[|front| - 1] == w[|w| - 2];
    }
  }

  // ----- The theorems, for everything the program can show

  lemma {:induction false} ParsePrefix(t0: nat, w: seq<Stamped>, k: nat)
    requires Parse(t0, w).Some? && k <= |w|
    ensures Parse(t0, w[..k]).Some?
    decreases |w|
  {
    if k == |w| {
      assert w[..k] == w;
    } else {
      ParsePrefix(t0, w[..|w| - 1], k);
      assert w[..|w| - 1][..k] == w[..k];
    }
  }

  /**
    With n wait handlers completed since boot, DOOR_WAIT_EXPIRY was posted exactly min(n, 2) times and
    DOOR_WAIT_RETRY_END exactly max(n - 2, 0) times, across all visitors.
   */
  lemma RetryTheorem(t0: nat, w: seq<Stamped>)
    requires Shows(t0, w)
    ensures Tallied(SinceBoot(w), Count(SinceBoot(w), WAITS))
  {
    ProgramLanguage(t0, w);
    RetriesAreCumulative(t0, w);
  }

  /**
    Every visitor and every retry is answered by exactly one ring, at once: rings equal visitors plus retries,
    less one if and only if the last thing shown is such a request.
   */
  lemma RingTheorem(t0: nat, w: seq<Stamped>)
    requires Shows(t0, w)
    ensures Count(w, RINGS) + IfThenOne(AsksForRing(w)) == Count(w, VISITORS) + Count(w, RETRIES)
  {
    ProgramLanguage(t0, w);
    RingsAreAnswers(t0, w);
    RingingWords(t0, w);
  }

  lemma RingsNeedVisitors(t0: nat, w: seq<Stamped>, k: nat) returns (j: nat)
    requires Parse(t0, w).Some? && k < |w| && w[k].obs == Ring
    ensures OpensChain(w[..k], j)
  {
    ParsePrefix(t0, w, k + 1);
    assert w[..k + 1] == w[..k] + [w[k]];
    j := RingNeedsChain(t0, w[..k], w[k]);
  }

  /** Before every ring there is a visitor in range, itself preceded by motion, with no cycle ended in between. */
  lemma VisitorTheorem(t0: nat, w: seq<Stamped>, k: nat) returns (j: nat)
    requires Shows(t0, w) && k < |w| && w[k].obs == Ring
    ensures OpensChain(w[..k], j)
  {
    ProgramLanguage(t0, w);
    j := RingsNeedVisitors(t0, w, k);
  }

  /**
    One cycle, from its MOTION_SCAN_ON at `i` to any later point `j` before the next: if `c` waits had been counted
    since boot when it began, it rings at most max(1, 3 - c) times; and if it ends through the 10-minute timer it
    rings exactly that often and lasts at least 33 seconds for each ring and 600 more.
   */
  lemma CycleTheorem(t0: nat, w: seq<Stamped>, i: nat, j: nat)
    requires Shows(t0, w) && i <= j < |w| && w[i].obs == ScanOn
    requires forall k :: i < k <= j ==> !StartsCycle(w[k].obs)
    ensures var c := Count(SinceBoot(w[..i]), WAITS);
            var rings := Count(w[i + 1..j + 1], RINGS);
            && rings <= FullRings(c)
            && (w[j].obs == ResetExpired ==>
                  rings == FullRings(c) && w[j].time - w[i].time >= 33 * rings + 600)
  {
    ProgramLanguage(t0, w);
    var v := w[..j + 1];
    ParsePrefix(t0, w, j + 1);
    assert v[..i] == w[..i] && v[i + 1..] == w[i + 1..j + 1];
    CycleSoFar(t0, v, i);
    RetriesAreCumulative(t0, w[..i]);
    if w[j].obs == ResetExpired {
      ExhaustedCycle(t0, v, i);
    }
  }

  /**
    The deadlocks, exactly: nobody can ever move again if and only if the last thing the run showed was a door
    value that is neither 0 nor 1 read after a ring, or a failed `execl`; and that is also exactly when no work
    is in flight.
   */
  lemma DeadlockCauses(t0: nat, actions: seq<Action>)
    requires Run(t0, actions).History?
    ensures var h := Run(t0, actions);
            && (Stuck(h.s) <==> EndsForGood(h.trace))
            && (WorkInFlight(h.s) == 0 <==> EndsForGood(h.trace))
  {
    TracesObeyGrammar(t0, actions);
    OneTokenInFlight(t0, actions);
    StoppedWords(t0, Run(t0, actions).trace);
  }
}
