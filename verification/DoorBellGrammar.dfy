/**
  What the door-bell program shows to the outside, as a timed grammar, and what follows from the grammar alone.

  `TracesObeyGrammar` and `GrammarIsExact` make it exact: a timed word is in the language if and only if some
  schedule, some inputs and some clock make the threaded program show it.
 */
module DoorBellGrammar {
  import opened Options
  import opened PipeFrames
  import opened DoorBellSystem
  import opened DoorBellToken
  import opened DoorBellRuns

  // ----- The grammar

  /** What comes next. */
  datatype NonTerminal =
    | Start            // MOTION_SCAN_ON
    | Scanning         // motion readings until a visitor or a fault
    | Faulty           // a reboot
    | Measuring        // a distance reading
    | Ringing          // RING_BELL
    | Rung             // the 3-second expiry
    | AtDoor           // a door reading
    | DoorOpen         // door readings until it is no longer open
    | Waiting          // the 30-second wait's verdict
    | CoolingDown      // the 10-minute expiry
    | Stopped          // nothing, ever

  /** Where a word has got to, the waits expired since boot, and the time of its last observation. */
  datatype Phase = Phase(next: NonTerminal, expired: nat, last: nat)

  function Delay(next: NonTerminal): nat {
    match next
    case Rung => BELL_SECONDS
    case Waiting => DOOR_WAIT_SECONDS
    case CoolingDown => RESET_SECONDS
    case _ => 0
  }

  function Produce(next: NonTerminal, expired: nat, obs: Obs): Option<NonTerminal> {
    match (next, obs)
    case (Start, ScanOn) => Some(Scanning)
    case (Scanning, MotionReading(r)) =>
      Some(if r.status != ECU_WORKING then Faulty else if r.value == 1 then Measuring else Scanning)
    case (Faulty, Reboot(works)) => Some(if works then Start else Stopped)
    case (Measuring, DistanceReading(r)) =>
      Some(if r.status != ECU_WORKING then Faulty else if InRange(r) then Ringing else Start)
    case (Ringing, Ring) => Some(Rung)
    case (Rung, BellExpired) => Some(AtDoor)
    case (AtDoor, DoorReading(r)) =>
      Some(if r.value == DOOR_OPEN then DoorOpen else if r.value == DOOR_CLOSED then Waiting else Stopped)
    case (DoorOpen, DoorReading(r)) => Some(if r.value == DOOR_OPEN then DoorOpen else Start)
    case (Waiting, WaitPosted(ev)) =>
      if expired + 1 < MAX_RETRIES && ev == DoorWaitExpiry then Some(Ringing)
      else if expired + 1 >= MAX_RETRIES && ev == DoorWaitRetryEnd then Some(CoolingDown)
      else None
    case (CoolingDown, ResetExpired) => Some(Start)
    case _ => None
  }

  function Expired(expired: nat, obs: Obs): nat {
    if obs == Reboot(true) then 0 else if obs.WaitPosted? then expired + 1 else expired
  }

  function Next(p: Phase, o: Stamped): Option<Phase> {
    var nt := Produce(p.next, p.expired, o.obs);
    if nt.None? || o.time < p.last + Delay(p.next) then None
    else Some(Phase(nt.value, Expired(p.expired, o.obs), o.time))
  }

  /** The phase a word of the language leads to; `None` for words outside it. */
  function Parse(t0: nat, w: seq<Stamped>): Option<Phase> {
    if w == [] then Some(Phase(Start, 0, t0))
    else
      var before := Parse(t0, w[..|w| - 1]);
      if before.None? then None else Next(before.value, w[|w| - 1])
  }

  // ----- Token positions and phases

  function EventPhase(ev: Event): NonTerminal {
    match ev
    case MotionDetected => Measuring
    case ValidDistance => Ringing
    case DoorWaitExpiry => Ringing
    case InvalidDistance => Start
    case RingBellExpiry => AtDoor
    case EcuNotWorking => Faulty
    case DoorWaitRetryEnd => CoolingDown
    case _ => Stopped
  }

  function PhaseOf(loc: Loc): NonTerminal {
    match loc
    case Booting => Start
    case ScanFrame => Scanning case MotionSwitch => Scanning case MotionSense => Scanning
    case MotionPost(ev) => EventPhase(ev)
    case DistanceFrame => Measuring case DistanceSwitch => Measuring case DistanceSense => Measuring
    case DistancePost(ev) => EventPhase(ev)
    case Queued(ev) => EventPhase(ev)
    case Handling(ev) => EventPhase(ev)
    case BellFrame(c) => if c == RingBell then Rung else AtDoor
    case BellSwitch(c) => if c == RingBell then Rung else AtDoor
    case BellArmed(_) => Rung
    case PollingDoor => DoorOpen
    case PostingScan => Start
    case StartingWait => Waiting case WaitArmed(_) => Waiting
    case ResetArmed(_) => CoolingDown
    case InHandler(h) =>
      if h.BellStop? || h.BellPost? then AtDoor else if h.ResetStop? || h.ResetPost? then Start else Waiting
    case Lost => Stopped case Cancelled => Stopped
  }

  /** Waits reported so far; a handler that has stored the counter has not reported yet. */
  function Reported(t: Token): int {
    if t.loc.InHandler? && (t.loc.h.WaitStop? || t.loc.h.WaitTest? || t.loc.h.WaitPost?) then t.count - 1 else t.count
  }

  /** The earliest clock reading at which the token can show its next observation. */
  function Earliest(t: Token): nat {
    match t.loc
    case BellArmed(due) => due case WaitArmed(due) => due case ResetArmed(due) => due
    case BellFrame(c) => if c == RingBell then t.now + BELL_SECONDS else t.now
    case BellSwitch(c) => if c == RingBell then t.now + BELL_SECONDS else t.now
    case StartingWait => t.now + DOOR_WAIT_SECONDS
    case Queued(ev) => if ev == DoorWaitRetryEnd then t.now + RESET_SECONDS else t.now
    case Handling(ev) => if ev == DoorWaitRetryEnd then t.now + RESET_SECONDS else t.now
    case _ => t.now
  }

  predicate Matches(t: Token, p: Phase) {
    && p.next == PhaseOf(t.loc)
    && p.expired == Reported(t)
    && p.last + Delay(p.next) <= Earliest(t)
  }

  /** A step either shows nothing and keeps the phase, or shows exactly a production of the grammar. */
  predicate Parsed(t: Token, o: TokenOutcome, p: Phase) {
    o.Goes? ==>
      if o.shown.None? then Matches(o.t, p)
      else
        var p' := Next(p, Stamped(t.now, o.shown.value));
        p'.Some? && Matches(o.t, p'.value)
  }

  lemma AnswerParses(t: Token, p: Phase, input: Reading, execWorks: bool)
    requires Carries(t) && Matches(t, p) && t.loc.Handling?
    ensures Parsed(t, TokenMonitor(t, input, execWorks), p)
  {}

  lemma MonitorParses(t: Token, p: Phase, input: Reading, execWorks: bool)
    requires Carries(t) && Matches(t, p)
    ensures Parsed(t, TokenMonitor(t, input, execWorks), p)
  {
    if t.loc.Handling? { AnswerParses(t, p, input, execWorks); }
  }

  lemma MotionParses(t: Token, p: Phase, input: Reading)
    requires Carries(t) && Matches(t, p)
    ensures Parsed(t, TokenMotion(t, input), p)
  {}

  lemma DistanceParses(t: Token, p: Phase, input: Reading)
    requires Carries(t) && Matches(t, p)
    ensures Parsed(t, TokenDistance(t, input), p)
  {}

  lemma BellParses(t: Token, p: Phase)
    requires Carries(t) && Matches(t, p)
    ensures Parsed(t, TokenBell(t), p)
  {}

  lemma ExpireParses(t: Token, p: Phase, id: TimerId)
    requires Carries(t) && Matches(t, p)
    ensures Parsed(t, TokenExpire(t, id), p)
  {}

  lemma HandlerParses(t: Token, p: Phase, i: nat)
    requires Carries(t) && Matches(t, p)
    ensures Parsed(t, TokenHandler(t, i), p)
  {}

  lemma StepParses(t: Token, p: Phase, a: Action)
    requires Carries(t) && Matches(t, p)
    ensures Parsed(t, TokenStep(t, a), p)
  {
    match a
    case Tick(_) =>
    case Monitor(input, execWorks) => MonitorParses(t, p, input, execWorks);
    case Motion(input) => MotionParses(t, p, input);
    case Distance(input) => DistanceParses(t, p, input);
    case Bell => BellParses(t, p);
    case Expire(id) => ExpireParses(t, p, id);
    case RunHandler(i) => HandlerParses(t, p, i);
  }

  // ----- Soundness: every run's trace is in the language

  lemma {:induction false} TokenTraceParses(t0: nat, actions: seq<Action>)
    requires TokenRun(t0, actions).TokenHistory?
    ensures var h := TokenRun(t0, actions);
            Carries(h.t) && Parse(t0, h.trace).Some? && Matches(h.t, Parse(t0, h.trace).value)
    decreases |actions|
  {
    RunsAgree(t0, actions);
    if actions != [] {
      var front, a := actions[..|actions| - 1], actions[|actions| - 1];
      TokenTraceParses(t0, front);
      var h := TokenRun(t0, front);
      StepParses(h.t, Parse(t0, h.trace).value, a);
      var shown := TokenStep(h.t, a).shown;
      if shown.Some? {
        var o := Stamped(h.t.now, shown.value);
        assert (h.trace + [o])[..|h.trace|] == h.trace;
      } else {
        assert h.trace + [] == h.trace;
      }
    }
  }

  lemma MatchedState(t: Token, p: Phase)
    requires Carries(t) && Matches(t, p)
    ensures Dead(t.loc) <==> p.next == Stopped
    ensures !t.loc.InHandler? ==> Place(t).count == p.expired
    ensures t.loc.InHandler? ==> Place(t).handlers != []
  {}

  /** Every run's timed trace is a word of the grammar, and the counter and the deadlocks are what it says. */
  lemma TracesObeyGrammar(t0: nat, actions: seq<Action>)
    requires Run(t0, actions).History?
    ensures var h := Run(t0, actions);
            var p := Parse(t0, h.trace);
            && p.Some?
            && (Stuck(h.s) <==> p.value.next == Stopped)
            && (h.s.handlers == [] ==> h.s.count == p.value.expired)
  {
    RunsAgree(t0, actions);
    TokenTraceParses(t0, actions);
    var t := TokenRun(t0, actions).t;
    StuckIffDead(t);
    MatchedState(t, Parse(t0, Run(t0, actions).trace).value);
  }

  // ----- Completeness: every word of the language is some run's trace

  /** The next action of the token shows something. */
  predicate Speaks(loc: Loc) {
    match loc
    case Booting => true case MotionSense => true case DistanceSense => true
    case PollingDoor => true case PostingScan => true
    case BellArmed(_) => true case ResetArmed(_) => true
    case Handling(ev) => ev != MotionDetected && ev != DoorWaitRetryEnd
    case InHandler(h) => h.WaitPost? || h.ResetPost?
    case _ => false
  }

  /** The action that makes a speaking token show `obs`. */
  function Saying(loc: Loc, obs: Obs): Action {
    match obs
    case MotionReading(r) => Motion(r)
    case DistanceReading(r) => Distance(r)
    case DoorReading(r) => Monitor(r, true)
    case Reboot(works) => Monitor(Reading(0, 0), works)
    case _ => NextAction(loc)
  }

  lemma SpeakingIsFree(t: Token, p: Phase, o: Stamped)
    requires Carries(t) && Speaks(t.loc) && Matches(t, p) && Next(p, o).Some?
    requires t.now == o.time && Earliest(t) <= o.time
    ensures var out := TokenStep(t, Saying(t.loc, o.obs));
            out.Goes? && out.shown == Some(o.obs)
            && Earliest(out.t) == o.time + Delay(Next(p, o).value.next) && out.t.now == o.time
  {}

  lemma SilentStep(t: Token)
    requires Carries(t) && !Speaks(t.loc) && !Dead(t.loc) && (t.loc.WaitArmed? ==> t.loc.due <= t.now)
    ensures var out := TokenStep(t, NextAction(t.loc));
            out.Goes? && out.shown == None && Earliest(out.t) <= (if t.loc.WaitArmed? then t.now else Earliest(t))
            && out.t.now == t.now && Rank(out.t) < Rank(t)
  {
    StepDescends(t, NextAction(t.loc));
  }

  lemma RunOneMore(t0: nat, actions: seq<Action>, a: Action)
    ensures TokenRun(t0, actions + [a]) == TokenExtend(TokenRun(t0, actions), a)
  {
    assert (actions + [a])[..|actions|] == actions;
  }

  /** A run that can still show `o` next. */
  predicate CanSay(t0: nat, actions: seq<Action>, o: Stamped) {
    var h := TokenRun(t0, actions);
    h.TokenHistory? && h.t.now <= o.time && Earliest(h.t) <= o.time && Parse(t0, h.trace + [o]).Some?
  }

  /** `more` shows what `actions` shows and then `o`, with no time lost. */
  predicate Said(t0: nat, actions: seq<Action>, o: Stamped, more: seq<Action>) {
    var h := TokenRun(t0, actions);
    var h' := TokenRun(t0, more);
    && h.TokenHistory? && h'.TokenHistory? && h'.trace == h.trace + [o] && h'.t.now == o.time
    && Parse(t0, h'.trace).Some? && Earliest(h'.t) == o.time + Delay(Parse(t0, h'.trace).value.next)
  }

  lemma ParseSplit(t0: nat, w: seq<Stamped>, o: Stamped)
    requires Parse(t0, w + [o]).Some?
    ensures Parse(t0, w).Some? && Next(Parse(t0, w).value, o) == Parse(t0, w + [o])
  {
    assert (w + [o])[..|w|] == w;
  }

  lemma SilentExtend(h: TokenHistory, a: Action)
    requires h.TokenHistory? && TokenStep(h.t, a).Goes? && TokenStep(h.t, a).shown == None
    ensures TokenExtend(h, a) == h.(t := TokenStep(h.t, a).t)
  {}

  lemma SpokenExtend(h: TokenHistory, a: Action, o: Stamped)
    requires h.TokenHistory? && TokenStep(h.t, a).Goes? && TokenStep(h.t, a).shown == Some(o.obs) && h.t.now == o.time
    ensures TokenExtend(h, a) == TokenHistory(TokenStep(h.t, a).t, h.trace + [o])
  {}

  lemma EarliestLater(t: Token, time: nat)
    requires Speaks(t.loc) || t.loc.WaitArmed?
    requires t.now <= time && Earliest(t) <= time
    ensures Earliest(t.(now := time)) <= time
  {}

  lemma TickExtend(h: TokenHistory, time: nat)
    requires h.TokenHistory? && h.t.now <= time
    ensures TokenExtend(h, Tick(time - h.t.now)) == h.(t := h.t.(now := time))
  {
    assert h.trace + [] == h.trace;
  }

  lemma WaitUntil(t0: nat, actions: seq<Action>, o: Stamped) returns (waited: seq<Action>)
    requires CanSay(t0, actions, o)
    requires var loc := TokenRun(t0, actions).t.loc; Speaks(loc) || loc.WaitArmed?
    ensures CanSay(t0, waited, o)
    ensures TokenRun(t0, waited) == TokenRun(t0, actions).(t := TokenRun(t0, actions).t.(now := o.time))
  {
    var h := TokenRun(t0, actions);
    waited := actions + [Tick(o.time - h.t.now)];
    RunOneMore(t0, actions, Tick(o.time - h.t.now));
    TickExtend(h, o.time);
    EarliestLater(h.t, o.time);
  }

  lemma SayNow(t0: nat, actions: seq<Action>, o: Stamped) returns (more: seq<Action>)
    requires CanSay(t0, actions, o)
    requires Speaks(TokenRun(t0, actions).t.loc) && TokenRun(t0, actions).t.now == o.time
    ensures Said(t0, actions, o, more)
  {
    TokenTraceParses(t0, actions);
    var h := TokenRun(t0, actions);
    ParseSplit(t0, h.trace, o);
    SpeakingIsFree(h.t, Parse(t0, h.trace).value, o);
    more := actions + [Saying(h.t.loc, o.obs)];
    RunOneMore(t0, actions, Saying(h.t.loc, o.obs));
    SpokenExtend(h, Saying(h.t.loc, o.obs), o);
  }

  lemma MoveSilently(t0: nat, actions: seq<Action>, o: Stamped) returns (moved: seq<Action>)
    requires CanSay(t0, actions, o)
    requires var t := TokenRun(t0, actions).t;
             !Speaks(t.loc) && (t.loc.WaitArmed? ==> t.now == o.time)
    ensures CanSay(t0, moved, o)
    ensures TokenRun(t0, moved).trace == TokenRun(t0, actions).trace
    ensures Rank(TokenRun(t0, moved).t) < Rank(TokenRun(t0, actions).t)
  {
    TokenTraceParses(t0, actions);
    var h := TokenRun(t0, actions);
    ParseSplit(t0, h.trace, o);
    SilentStep(h.t);
    moved := actions + [NextAction(h.t.loc)];
    RunOneMore(t0, actions, NextAction(h.t.loc));
    SilentExtend(h, NextAction(h.t.loc));
  }

  /** Extends a run, silently, until it can show `o`, and shows it at the right time. */
  lemma {:induction false} Say(t0: nat, actions: seq<Action>, o: Stamped) returns (more: seq<Action>)
    requires CanSay(t0, actions, o)
    ensures Said(t0, actions, o, more)
    decreases Rank(TokenRun(t0, actions).t)
  {
    var t := TokenRun(t0, actions).t;
    var waited := actions;
    if Speaks(t.loc) || t.loc.WaitArmed? {
      waited := WaitUntil(t0, actions, o);
      assert Rank(TokenRun(t0, waited).t) == Rank(t);
    }
    if Speaks(t.loc) {
      more := SayNow(t0, waited, o);
    } else {
      var moved := MoveSilently(t0, waited, o);
      more := Say(t0, moved, o);
    }
  }

  /** For every timed word of the grammar there is a schedule with inputs under which the program shows it. */
  lemma {:induction false} GrammarIsExact(t0: nat, w: seq<Stamped>) returns (actions: seq<Action>)
    requires Parse(t0, w).Some?
    ensures Run(t0, actions).History? && Run(t0, actions).trace == w
    ensures TokenRun(t0, actions).TokenHistory?
    ensures var t := TokenRun(t0, actions).t;
            var p := Parse(t0, w).value;
            t.now == p.last && Earliest(t) == p.last + Delay(p.next)
    decreases |w|
  {
    if w == [] {
      actions := [];
    } else {
      var front, o := w[..|w| - 1], w[|w| - 1];
      assert front + [o] == w;
      var before := GrammarIsExact(t0, front);
      RunsAgree(t0, before);
      actions := Say(t0, before, o);
    }
    RunsAgree(t0, actions);
  }

  /** Some run from boot at `t0` shows exactly `w`. */
  ghost predicate Shows(t0: nat, w: seq<Stamped>) {
    exists actions :: Run(t0, actions).History? && Run(t0, actions).trace == w
  }

  /** The language of the grammar is the set of timed traces of the program. */
  lemma ProgramLanguage(t0: nat, w: seq<Stamped>)
    ensures Shows(t0, w) <==> Parse(t0, w).Some?
  {
    if Shows(t0, w) {
      var actions :| Run(t0, actions).History? && Run(t0, actions).trace == w;
      TracesObeyGrammar(t0, actions);
    }
    if Parse(t0, w).Some? {
      var actions := GrammarIsExact(t0, w);
    }
  }
}
