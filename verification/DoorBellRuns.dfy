/**
  What the one-token structure gives for every run of the door-bell program: conservation of the token, what
  each channel, timer and thread can hold, who can move, and a bound on the work between two motion scans.
 */
module DoorBellRuns {
  import opened Options
  import opened PipeFrames
  import opened DoorBellSystem
  import opened DoorBellToken

  // ----- Every run is a run of the token machine

  datatype TokenHistory = Never | TokenHistory(t: Token, trace: seq<Stamped>)

  function TokenExtend(h: TokenHistory, a: Action): TokenHistory {
    if h.Never? then Never
    else
      match TokenStep(h.t, a)
      case Stays => Never
      case Goes(t', shown) => TokenHistory(t', h.trace + Shown(h.t.now, shown))
  }

  function TokenRunFrom(h: TokenHistory, actions: seq<Action>): TokenHistory {
    if actions == [] then h
    else TokenExtend(TokenRunFrom(h, actions[..|actions| - 1]), actions[|actions| - 1])
  }

  function TokenRun(t0: nat, actions: seq<Action>): TokenHistory {
    TokenRunFrom(TokenHistory(Boot(t0), []), actions)
  }

  function PlacedHistory(h: TokenHistory): History {
    match h
    case Never => Impossible
    case TokenHistory(t, trace) => History(Place(t), trace)
  }

  predicate Sound(h: TokenHistory) {
    h.TokenHistory? ==> Carries(h.t)
  }

  lemma {:induction false} RunsFromAgree(h: TokenHistory, actions: seq<Action>)
    requires Sound(h)
    ensures RunFrom(PlacedHistory(h), actions) == PlacedHistory(TokenRunFrom(h, actions))
    ensures Sound(TokenRunFrom(h, actions))
    decreases |actions|
  {
    if actions != [] {
      var front, a := actions[..|actions| - 1], actions[|actions| - 1];
      RunsFromAgree(h, front);
      var before := TokenRunFrom(h, front);
      if before.TokenHistory? {
        StepAgrees(before.t, a);
      }
    }
  }

  /** For every schedule and every input, the concurrent program and the token machine do the same. */
  lemma RunsAgree(t0: nat, actions: seq<Action>)
    ensures Run(t0, actions) == PlacedHistory(TokenRun(t0, actions))
    ensures Sound(TokenRun(t0, actions))
  {
    RunsFromAgree(TokenHistory(Boot(t0), []), actions);
  }

  // ----- Counting the work in flight

  function IfThenOne(b: bool): nat {
    if b then 1 else 0
  }

  function FramesIn(pipe: string): nat {
    |pipe| / MAX_MESSAGE_SIZE
  }

  predicate HoldsRequest(pc: WorkerPc) {
    pc.WorkerSwitch? || pc.WorkerSense? || pc.WorkerPost?
  }

  function InChannels(s: State): nat {
    FramesIn(s.pipe1) + FramesIn(s.pipe2) + FramesIn(s.pipe3) + |s.queue|
  }

  function ArmedTimers(s: State): nat {
    IfThenOne(s.bellTimer.Armed?) + IfThenOne(s.waitTimer.Armed?) + IfThenOne(s.resetTimer.Armed?)
  }

  function InThreads(s: State): nat {
    IfThenOne(!s.monitor.MonitorReceive?)
    + IfThenOne(HoldsRequest(s.motion)) + IfThenOne(HoldsRequest(s.distance)) + IfThenOne(HoldsRequest(s.bell))
  }

  /** Frames, messages, armed timers, running handlers, and threads with an unanswered request. */
  function WorkInFlight(s: State): nat {
    InChannels(s) + ArmedTimers(s) + |s.handlers| + InThreads(s)
  }

  predicate Dead(loc: Loc) {
    loc.Lost? || loc.Cancelled?
  }

  predicate InTransit(loc: Loc) {
    loc.ScanFrame? || loc.DistanceFrame? || loc.BellFrame? || loc.Queued?
  }

  lemma OneFrame(c: Command)
    ensures FramesIn("") == 0 && FramesIn(Frame(c)) == 1
  {}

  lemma PlacedChannels(t: Token)
    ensures InChannels(Place(t)) == IfThenOne(InTransit(t.loc))
  {
    OneFrame(MotionScanOn);
    OneFrame(CalcDistance);
    if t.loc.BellFrame? { OneFrame(t.loc.c); }
  }

  predicate OnTheClock(loc: Loc) {
    loc.BellArmed? || loc.WaitArmed? || loc.ResetArmed? || loc.InHandler?
  }

  lemma PlacedTimers(t: Token)
    ensures ArmedTimers(Place(t)) + |Place(t).handlers| == IfThenOne(OnTheClock(t.loc))
  {}

  lemma PlacedThreads(t: Token)
    ensures InThreads(Place(t)) == IfThenOne(!InTransit(t.loc) && !Dead(t.loc) && !OnTheClock(t.loc))
  {}

  lemma PlacedWork(t: Token)
    ensures WorkInFlight(Place(t)) == if Dead(t.loc) then 0 else 1
  {
    PlacedChannels(t);
    PlacedTimers(t);
    PlacedThreads(t);
  }

  function Later(s: State, seconds: nat): State {
    s.(now := s.now + seconds)
  }

  /** No amount of waiting lets anyone move again. */
  ghost predicate Stuck(s: State) {
    forall seconds: nat, a: Action :: !a.Tick? ==> Step(Later(s, seconds), a).Blocked?
  }

  /** Who performs an action. */
  datatype Party =
    | Clock | MonitorThread | MotionThread | DistanceThread | BellThread | Kernel(id: TimerId) | HandlerThread

  function PartyOf(a: Action): Party {
    match a
    case Tick(_) => Clock
    case Monitor(_, _) => MonitorThread
    case Motion(_) => MotionThread
    case Distance(_) => DistanceThread
    case Bell => BellThread
    case Expire(id) => Kernel(id)
    case RunHandler(_) => HandlerThread
  }

  /** The party the token waits for, as an action that moves it once the clock allows. */
  function NextAction(loc: Loc): Action {
    var r := Reading(0, 0);
    match loc
    case ScanFrame => Motion(r) case MotionSwitch => Motion(r)
    case MotionSense => Motion(r) case MotionPost(_) => Motion(r)
    case DistanceFrame => Distance(r) case DistanceSwitch => Distance(r)
    case DistanceSense => Distance(r) case DistancePost(_) => Distance(r)
    case BellFrame(_) => Bell case BellSwitch(_) => Bell
    case BellArmed(_) => Expire(BellTimer)
    case WaitArmed(_) => Expire(WaitTimer)
    case ResetArmed(_) => Expire(ResetTimer)
    case InHandler(_) => RunHandler(0)
    case _ => Monitor(r, true)
  }

  function WaitFor(loc: Loc): nat {
    match loc
    case BellArmed(due) => due case WaitArmed(due) => due case ResetArmed(due) => due
    case _ => 0
  }

  lemma LiveTokenMoves(t: Token)
    requires Carries(t) && !Dead(t.loc)
    ensures TokenStep(t.(now := t.now + WaitFor(t.loc)), NextAction(t.loc)).Goes?
  {}

  /** The scheduler never has a real choice: at most one party can move, and which one is fixed by the token. */
  lemma OnlyTokenHolderMoves(t: Token, a: Action)
    requires Carries(t) && !a.Tick? && TokenStep(t, a).Goes?
    ensures !Dead(t.loc) && PartyOf(a) == PartyOf(NextAction(t.loc))
  {}

  lemma PlaceLater(t: Token, seconds: nat)
    ensures Later(Place(t), seconds) == Place(t.(now := t.now + seconds))
    ensures Carries(t) ==> Carries(t.(now := t.now + seconds))
  {}

  lemma MovesTogether(t: Token, a: Action)
    requires Carries(t)
    ensures Step(Place(t), a).Moved? <==> TokenStep(t, a).Goes?
  {
    StepAgrees(t, a);
  }

  lemma MovesLater(t: Token, seconds: nat, a: Action)
    requires Carries(t)
    ensures Step(Later(Place(t), seconds), a).Moved? <==> TokenStep(t.(now := t.now + seconds), a).Goes?
  {
    var later := t.(now := t.now + seconds);
    PlaceLater(t, seconds);
    MovesTogether(later, a);
  }

  lemma DeadNeverMoves(t: Token, seconds: nat, a: Action)
    requires Carries(t) && Dead(t.loc) && !a.Tick?
    ensures Step(Later(Place(t), seconds), a).Blocked?
  {
    MovesLater(t, seconds, a);
    PlaceLater(t, seconds);
    var later := t.(now := t.now + seconds);
    if TokenStep(later, a).Goes? { OnlyTokenHolderMoves(later, a); }
  }

  lemma LiveMovesLater(t: Token)
    requires Carries(t) && !Dead(t.loc)
    ensures Step(Later(Place(t), WaitFor(t.loc)), NextAction(t.loc)).Moved?
  {
    LiveTokenMoves(t);
    MovesLater(t, WaitFor(t.loc), NextAction(t.loc));
  }

  lemma StuckIffDead(t: Token)
    requires Carries(t)
    ensures Stuck(Place(t)) <==> Dead(t.loc)
  {
    if Dead(t.loc) {
      forall seconds: nat, a: Action | !a.Tick? ensures Step(Later(Place(t), seconds), a).Blocked? {
        DeadNeverMoves(t, seconds, a);
      }
    } else {
      LiveMovesLater(t);
      assert !NextAction(t.loc).Tick?;
    }
  }

  /**
    In every reachable state of every run there is at most one unit of work in flight, and the system is deadlocked
    exactly when there is none.
   */
  lemma OneTokenInFlight(t0: nat, actions: seq<Action>)
    requires Run(t0, actions).History?
    ensures var s := Run(t0, actions).s;
            && WorkInFlight(s) <= 1
            && (WorkInFlight(s) == 0 <==> Stuck(s))
  {
    RunsAgree(t0, actions);
    var t := TokenRun(t0, actions).t;
    PlacedWork(t);
    StuckIffDead(t);
  }

  /** And no two parties are ever able to move at the same time. */
  lemma NoRace(t0: nat, actions: seq<Action>, a: Action, b: Action)
    requires Run(t0, actions).History? && !a.Tick? && !b.Tick?
    requires Step(Run(t0, actions).s, a).Moved? && Step(Run(t0, actions).s, b).Moved?
    ensures PartyOf(a) == PartyOf(b)
  {
    RunsAgree(t0, actions);
    var t := TokenRun(t0, actions).t;
    StepAgrees(t, a);
    StepAgrees(t, b);
    OnlyTokenHolderMoves(t, a);
    OnlyTokenHolderMoves(t, b);
  }

  // ----- What each part can hold

  predicate WorkersAtRest(s: State) {
    s.motion == WorkerRead && s.distance == WorkerRead && s.bell == WorkerRead
  }

  predicate ChannelsEmpty(s: State) {
    s.pipe1 == "" && s.pipe2 == "" && s.pipe3 == "" && s.queue == []
  }

  predicate TimersIdle(s: State) {
    s.bellTimer == Idle && s.waitTimer == Idle && s.resetTimer == Idle && s.handlers == []
  }

  /** Each pipe carries only the commands meant for its reader. */
  predicate PipesTyped(s: State) {
    && s.pipe1 in {"", Frame(MotionScanOn)}
    && s.pipe2 in {"", Frame(CalcDistance)}
    && s.pipe3 in {"", Frame(RingBell), Frame(RingBellExpiry)}
  }

  /** No thread is about to take the `default` branch of its switch. */
  predicate NoDefaultBranch(s: State) {
    && (s.monitor.MonitorHandle? ==>
          s.monitor.ev in {MotionDetected, ValidDistance, InvalidDistance, RingBellExpiry, EcuNotWorking,
                           DoorWaitExpiry, DoorWaitRetryEnd})
    && (s.motion.WorkerSwitch? ==> StrEnum(Some(s.motionBuf)) == MotionScanOn)
    && (s.distance.WorkerSwitch? ==> StrEnum(Some(s.distanceBuf)) == CalcDistance)
    && (s.bell.WorkerSwitch? ==> StrEnum(Some(s.bellBuf)) in {RingBell, RingBellExpiry})
  }

  lemma PlacedPipes(t: Token)
    requires Carries(t)
    ensures PipesTyped(Place(t))
  {}

  lemma PlacedSwitches(t: Token)
    requires Carries(t)
    ensures NoDefaultBranch(Place(t))
  {}

  /**
    In every reachable state: each pipe carries only its reader's commands, no `default` branch is next, at most
    one timer is armed and at most one expiry handler runs, a running handler finds every timer disarmed (so its
    `timer_stop` cancels nothing), the shared counter is not written between a handler's load and store, and a
    reboot starts with all channels empty, all timers idle and every worker blocked in `read`.
   */
  lemma Discipline(t0: nat, actions: seq<Action>)
    requires Run(t0, actions).History?
    ensures var s := Run(t0, actions).s;
            && PipesTyped(s)
            && NoDefaultBranch(s)
            && ArmedTimers(s) <= 1 && |s.handlers| <= 1
            && (s.handlers != [] ==>
                  ArmedTimers(s) == 0 && (s.handlers[0].WaitStore? ==> s.handlers[0].loaded == s.count))
            && (s.monitor == MonitorHandle(EcuNotWorking) ==> ChannelsEmpty(s) && TimersIdle(s) && WorkersAtRest(s))
  {
    RunsAgree(t0, actions);
    var t := TokenRun(t0, actions).t;
    PlacedPipes(t);
    PlacedSwitches(t);
  }

  // ----- Every cycle ends

  predicate IdlePoll(s: State, a: Action) {
    || (s.motion.WorkerSense? && a.Motion? && a.input.status == ECU_WORKING && a.input.value != 1)
    || (s.monitor.MonitorPollDoor? && a.Monitor? && a.input.value == DOOR_OPEN)
  }

  /** A step that does work: not the clock, not a poll that found nothing new. */
  predicate Busy(s: State, a: Action) {
    !a.Tick? && !IdlePoll(s, a)
  }

  /** Observations at which a new cycle starts. */
  predicate StartsCycle(o: Obs) {
    o == ScanOn || o == Reboot(true)
  }

  const RING_STEPS: nat := 18
  const TAIL_STEPS: nat := 5

  /** Steps left in the current ring, counted down to the wait handler's post. */
  function RingCountdown(loc: Loc): nat {
    match loc
    case Queued(ev) => if ev == RingBellExpiry then 9 else 18
    case Handling(ev) => if ev == RingBellExpiry then 8 else 17
    case BellFrame(c) => if c == RingBell then 16 else 11
    case BellSwitch(c) => if c == RingBell then 15 else 10
    case BellArmed(_) => 14
    case StartingWait => 7
    case WaitArmed(_) => 6
    case InHandler(BellStop) => 13
    case InHandler(BellPost) => 12
    case InHandler(WaitLoad) => 5
    case InHandler(WaitStore(_)) => 4
    case InHandler(WaitStop) => 3
    case InHandler(WaitTest) => 2
    case InHandler(WaitPost(_)) => 1
    case _ => 0
  }

  /** Rings that can still follow the current one. */
  function MoreRings(t: Token): nat {
    var counted := t.loc.InHandler? && (t.loc.h.WaitStop? || t.loc.h.WaitTest? || t.loc.h.WaitPost?);
    var left := MAX_RETRIES - t.count - if counted then 0 else 1;
    if left < 0 then 0 else left
  }

  const CYCLE_STEPS: nat := 69

  /** An upper bound on the busy steps left before the next motion scan, reboot or stop. */
  function Rank(t: Token): nat {
    match t.loc
    case Booting => CYCLE_STEPS
    case ScanFrame => CYCLE_STEPS case MotionSwitch => 68 case MotionSense => 67 case MotionPost(_) => 66
    case Queued(MotionDetected) => 65 case Handling(MotionDetected) => 64
    case DistanceFrame => 63 case DistanceSwitch => 62 case DistanceSense => 61 case DistancePost(_) => 60
    case Queued(InvalidDistance) => 2 case Handling(InvalidDistance) => 1
    case Queued(EcuNotWorking) => 2 case Handling(EcuNotWorking) => 1
    case Queued(DoorWaitRetryEnd) => 5 case Handling(DoorWaitRetryEnd) => 4
    case ResetArmed(_) => 3 case InHandler(ResetStop) => 2 case InHandler(ResetPost) => 1
    case PollingDoor => 2 case PostingScan => 1
    case Lost => 0 case Cancelled => 0
    case _ => RingCountdown(t.loc) + RING_STEPS * MoreRings(t) + TAIL_STEPS
  }

  lemma RankBound(t: Token)
    ensures Rank(t) <= CYCLE_STEPS
  {}

  predicate ShowsStart(o: TokenOutcome) {
    o.Goes? && o.shown.Some? && StartsCycle(o.shown.value)
  }

  lemma MonitorDescends(t: Token, input: Reading, execWorks: bool)
    requires Carries(t)
    ensures var o := TokenMonitor(t, input, execWorks);
            o.Goes? && !ShowsStart(o) ==>
              Rank(o.t) + IfThenOne(Busy(Place(t), Monitor(input, execWorks))) <= Rank(t)
  {}

  lemma HandlerDescends(t: Token, i: nat)
    requires Carries(t)
    ensures var o := TokenHandler(t, i);
            o.Goes? && !ShowsStart(o) ==> Rank(o.t) < Rank(t)
  {}

  lemma MotionDescends(t: Token, input: Reading)
    requires Carries(t)
    ensures var o := TokenMotion(t, input);
            o.Goes? ==> Rank(o.t) + IfThenOne(Busy(Place(t), Motion(input))) <= Rank(t)
  {}

  lemma DistanceDescends(t: Token, input: Reading)
    requires Carries(t)
    ensures TokenDistance(t, input).Goes? ==> Rank(TokenDistance(t, input).t) < Rank(t)
  {}

  lemma BellDescends(t: Token)
    requires Carries(t)
    ensures TokenBell(t).Goes? ==> Rank(TokenBell(t).t) < Rank(t)
  {}

  lemma ExpireDescends(t: Token, id: TimerId)
    requires Carries(t)
    ensures TokenExpire(t, id).Goes? ==> Rank(TokenExpire(t, id).t) < Rank(t)
  {}

  lemma StepDescends(t: Token, a: Action)
    requires Carries(t)
    ensures var o := TokenStep(t, a);
            o.Goes? && !ShowsStart(o) ==> Rank(o.t) + IfThenOne(Busy(Place(t), a)) <= Rank(t)
  {
    match a
    case Tick(seconds) => assert Rank(t.(now := t.now + seconds)) == Rank(t);
    case Monitor(input, execWorks) => MonitorDescends(t, input, execWorks);
    case Motion(input) => MotionDescends(t, input);
    case Distance(input) => DistanceDescends(t, input);
    case Bell => BellDescends(t);
    case Expire(id) => ExpireDescends(t, id);
    case RunHandler(i) => HandlerDescends(t, i);
  }

  /** Busy steps among `actions`, taken after `h`. */
  function BusySteps(h: History, actions: seq<Action>): nat
    requires RunFrom(h, actions).History?
  {
    if actions == [] then 0
    else
      var front, a := actions[..|actions| - 1], actions[|actions| - 1];
      BusySteps(h, front) + IfThenOne(Busy(RunFrom(h, front).s, a))
  }

  /** None of the observations a history makes after its first `from` ones starts a new cycle. */
  predicate NoStartSince(h: History, from: nat)
    requires h.History?
  {
    forall k :: from <= k < |h.trace| ==> !StartsCycle(h.trace[k].obs)
  }

  lemma {:induction false} SegmentDescends(h: TokenHistory, actions: seq<Action>)
    requires h.TokenHistory? && Carries(h.t)
    requires RunFrom(PlacedHistory(h), actions).History?
    requires NoStartSince(RunFrom(PlacedHistory(h), actions), |h.trace|)
    ensures var h' := TokenRunFrom(h, actions);
            && h'.TokenHistory? && |h.trace| <= |h'.trace|
            && BusySteps(PlacedHistory(h), actions) + Rank(h'.t) <= Rank(h.t)
    decreases |actions|
  {
    RunsFromAgree(h, actions);
    if actions != [] {
      var front, a := actions[..|actions| - 1], actions[|actions| - 1];
      RunsFromAgree(h, front);
      var mid := TokenRunFrom(h, front);
      var shown := TokenStep(mid.t, a).shown;
      var whole := TokenRunFrom(h, actions).trace;
      assert whole == mid.trace + Shown(mid.t.now, shown);
      assert forall k :: 0 <= k < |mid.trace| ==> mid.trace[k] == whole[k];
      SegmentDescends(h, front);
      if shown.Some? {
        assert whole[|mid.trace|].obs == shown.value;
      }
      StepDescends(mid.t, a);
    }
  }

  /**
    Every cycle ends: after any run, no continuation that does not reach the next MOTION_SCAN_ON or reboot holds
    more than 69 steps besides clock ticks, no-motion polls and door-still-open polls. (By `OneTokenInFlight` a
    state in which nobody can ever move again has lost its token.)
   */
  lemma CycleEnds(t0: nat, before: seq<Action>, segment: seq<Action>)
    requires Run(t0, before).History? && RunFrom(Run(t0, before), segment).History?
    requires NoStartSince(RunFrom(Run(t0, before), segment), |Run(t0, before).trace|)
    ensures BusySteps(Run(t0, before), segment) <= CYCLE_STEPS
  {
    RunsAgree(t0, before);
    var h := TokenRun(t0, before);
    SegmentDescends(h, segment);
    RankBound(h.t);
  }
}
