/**
  The concurrent door-bell system is, step for step, a sequential machine that moves one token around.

  `Place` spreads a token position over threads, pipes, queue, timers and handlers. From every placed state
  the system and the token machine allow the same actions, show the same observations and stay in step.
 */
module DoorBellToken {
  import opened Options
  import opened PipeFrames
  import opened DoorBellSystem

  /** Where the one unit of work is. */
  datatype Loc =
    | Booting
    | ScanFrame | MotionSwitch | MotionSense | MotionPost(ev: Event)
    | DistanceFrame | DistanceSwitch | DistanceSense | DistancePost(ev: Event)
    | Queued(ev: Event) | Handling(ev: Event)
    | BellFrame(c: Command) | BellSwitch(c: Command) | BellArmed(due: nat)
    | PollingDoor | PostingScan | StartingWait | WaitArmed(due: nat) | ResetArmed(due: nat)
    | InHandler(h: Handler)
    | Lost                         // the monitor saw a door value that is neither open nor closed
    | Cancelled                    // process_reboot returned

  datatype Token = Token(now: nat, loc: Loc, count: nat, motionBuf: Buffer, distanceBuf: Buffer, bellBuf: Buffer)

  /** Every thread at rest, nothing in flight. */
  function Quiet(t: Token): State {
    State(t.now, MonitorReceive, WorkerRead, WorkerRead, WorkerRead, t.motionBuf, t.distanceBuf, t.bellBuf,
          "", "", "", [], Idle, Idle, Idle, [], t.count)
  }

  function Place(t: Token): State {
    var q := Quiet(t);
    match t.loc
    case Booting => q.(monitor := MonitorBoot)
    case ScanFrame => q.(pipe1 := Frame(MotionScanOn))
    case MotionSwitch => q.(motion := WorkerSwitch)
    case MotionSense => q.(motion := WorkerSense)
    case MotionPost(ev) => q.(motion := WorkerPost(ev))
    case DistanceFrame => q.(pipe2 := Frame(CalcDistance))
    case DistanceSwitch => q.(distance := WorkerSwitch)
    case DistanceSense => q.(distance := WorkerSense)
    case DistancePost(ev) => q.(distance := WorkerPost(ev))
    case Queued(ev) => q.(queue := [ev])
    case Handling(ev) => q.(monitor := MonitorHandle(ev))
    case BellFrame(c) => q.(pipe3 := Frame(c))
    case BellSwitch(_) => q.(bell := WorkerSwitch)
    case BellArmed(due) => q.(bellTimer := Armed(due))
    case PollingDoor => q.(monitor := MonitorPollDoor)
    case PostingScan => q.(monitor := MonitorPostScan)
    case StartingWait => q.(monitor := MonitorStartWait)
    case WaitArmed(due) => q.(waitTimer := Armed(due))
    case ResetArmed(due) => q.(resetTimer := Armed(due))
    case InHandler(h) => q.(handlers := [h])
    case Lost => q
    case Cancelled =>
      q.(motion := WorkerCancelled, distance := WorkerCancelled, bell := WorkerCancelled,
         bellTimer := Deleted, waitTimer := Deleted, resetTimer := Deleted)
  }

  function Boot(now: nat): Token {
    Token(now, Booting, 0, ZEROS, ZEROS, ZEROS)
  }

  /** Which payloads can travel, and what buffers hold while a thread is about to look at them. */
  predicate Carries(t: Token) {
    match t.loc
    case MotionSwitch => StrEnum(Some(t.motionBuf)) == MotionScanOn
    case DistanceSwitch => StrEnum(Some(t.distanceBuf)) == CalcDistance
    case BellSwitch(c) => c in {RingBell, RingBellExpiry} && StrEnum(Some(t.bellBuf)) == c
    case BellFrame(c) => c in {RingBell, RingBellExpiry}
    case MotionPost(ev) => ev in {EcuNotWorking, MotionDetected}
    case DistancePost(ev) => ev in {EcuNotWorking, ValidDistance, InvalidDistance}
    case Queued(ev) => Handled(ev, t.count)
    case Handling(ev) => Handled(ev, t.count)
    case InHandler(WaitStore(loaded)) => loaded == t.count
    case InHandler(WaitStop) => t.count > 0
    case InHandler(WaitTest) => t.count > 0
    case InHandler(WaitPost(ev)) => t.count > 0 && ev == Verdict(t.count)
    case _ => true
  }

  /** What the wait handler reports once the counter stands at `count`. */
  function Verdict(count: nat): Event {
    if count >= MAX_RETRIES then DoorWaitRetryEnd else DoorWaitExpiry
  }

  /** The events the monitor can receive: never one that its switch leaves to `default`. */
  predicate Handled(ev: Event, count: nat) {
    || ev in {MotionDetected, ValidDistance, InvalidDistance, RingBellExpiry, EcuNotWorking}
    || (ev in {DoorWaitExpiry, DoorWaitRetryEnd} && count > 0 && ev == Verdict(count))
  }

  // ----- The token machine

  datatype TokenOutcome = Stays | Goes(t: Token, shown: Option<Obs>)

  function To(t: Token, loc: Loc): TokenOutcome {
    Goes(t.(loc := loc), None)
  }

  function Show(t: Token, loc: Loc, obs: Obs): TokenOutcome {
    Goes(t.(loc := loc), Some(obs))
  }

  function TokenMonitor(t: Token, input: Reading, execWorks: bool): TokenOutcome {
    match t.loc
    case Booting => Show(t, ScanFrame, ScanOn)
    case Queued(ev) => To(t, Handling(ev))
    case Handling(MotionDetected) => To(t, DistanceFrame)
    case Handling(ValidDistance) => Show(t, BellFrame(RingBell), Ring)
    case Handling(InvalidDistance) => Show(t, ScanFrame, ScanOn)
    case Handling(RingBellExpiry) =>
      Show(t, if input.value == DOOR_OPEN then PollingDoor
              else if input.value == DOOR_CLOSED then StartingWait else Lost, DoorReading(input))
    case Handling(EcuNotWorking) =>
      if execWorks then Goes(Boot(t.now), Some(Reboot(true))) else Show(t, Cancelled, Reboot(false))
    case Handling(DoorWaitExpiry) => Show(t, BellFrame(RingBell), Ring)
    case Handling(DoorWaitRetryEnd) => To(t, ResetArmed(t.now + RESET_SECONDS))
    case PollingDoor =>
      Show(t, if input.value == DOOR_OPEN then PollingDoor else PostingScan, DoorReading(input))
    case PostingScan => Show(t, ScanFrame, ScanOn)
    case StartingWait => To(t, WaitArmed(t.now + DOOR_WAIT_SECONDS))
    case _ => Stays
  }

  function TokenMotion(t: Token, input: Reading): TokenOutcome {
    match t.loc
    case ScanFrame => Goes(t.(loc := MotionSwitch, motionBuf := Frame(MotionScanOn)), None)
    case MotionSwitch => To(t, MotionSense)
    case MotionSense =>
      Show(t, if input.status != ECU_WORKING then MotionPost(EcuNotWorking)
              else if input.value == 1 then MotionPost(MotionDetected) else MotionSense, MotionReading(input))
    case MotionPost(ev) => To(t, Queued(ev))
    case _ => Stays
  }

  function TokenDistance(t: Token, input: Reading): TokenOutcome {
    match t.loc
    case DistanceFrame => Goes(t.(loc := DistanceSwitch, distanceBuf := Frame(CalcDistance)), None)
    case DistanceSwitch => To(t, DistanceSense)
    case DistanceSense =>
      Show(t, DistancePost(if input.status != ECU_WORKING then EcuNotWorking
                           else if InRange(input) then ValidDistance else InvalidDistance), DistanceReading(input))
    case DistancePost(ev) => To(t, Queued(ev))
    case _ => Stays
  }

  function TokenBell(t: Token): TokenOutcome {
    match t.loc
    case BellFrame(c) => Goes(t.(loc := BellSwitch(c), bellBuf := Frame(c)), None)
    case BellSwitch(c) =>
      if c == RingBell then To(t, BellArmed(t.now + BELL_SECONDS)) else To(t, Queued(RingBellExpiry))
    case _ => Stays
  }

  function TokenExpire(t: Token, id: TimerId): TokenOutcome {
    match (t.loc, id)
    case (BellArmed(due), BellTimer) => if due <= t.now then Show(t, InHandler(BellStop), BellExpired) else Stays
    case (WaitArmed(due), WaitTimer) => if due <= t.now then To(t, InHandler(WaitLoad)) else Stays
    case (ResetArmed(due), ResetTimer) => if due <= t.now then Show(t, InHandler(ResetStop), ResetExpired) else Stays
    case _ => Stays
  }

  function TokenHandler(t: Token, i: nat): TokenOutcome {
    if i != 0 then Stays
    else
      match t.loc
      case InHandler(BellStop) => To(t, InHandler(BellPost))
      case InHandler(BellPost) => To(t, BellFrame(RingBellExpiry))
      case InHandler(WaitLoad) => To(t, InHandler(WaitStore(t.count)))
      case InHandler(WaitStore(_)) => Goes(t.(loc := InHandler(WaitStop), count := t.count + 1), None)
      case InHandler(WaitStop) => To(t, InHandler(WaitTest))
      case InHandler(WaitTest) => To(t, InHandler(WaitPost(Verdict(t.count))))
      case InHandler(WaitPost(ev)) => Show(t, Queued(ev), WaitPosted(ev))
      case InHandler(ResetStop) => To(t, InHandler(ResetPost))
      case InHandler(ResetPost) => Show(t, ScanFrame, ScanOn)
      case _ => Stays
  }

  function TokenStep(t: Token, a: Action): TokenOutcome {
    match a
    case Tick(seconds) => Goes(t.(now := t.now + seconds), None)
    case Monitor(input, execWorks) => TokenMonitor(t, input, execWorks)
    case Motion(input) => TokenMotion(t, input)
    case Distance(input) => TokenDistance(t, input)
    case Bell => TokenBell(t)
    case Expire(id) => TokenExpire(t, id)
    case RunHandler(i) => TokenHandler(t, i)
  }

  /** A token outcome seen as an outcome of the concurrent system. */
  function Placed(o: TokenOutcome): Outcome {
    match o
    case Stays => Blocked
    case Goes(t, shown) => Moved(Place(t), shown)
  }

  predicate CarriesOn(o: TokenOutcome) {
    o.Goes? ==> Carries(o.t)
  }

  // ----- Agreement, party by party

  lemma PostToEmpty(c: Command)
    ensures "" + Frame(c) == Frame(c)
  {}

  lemma RebootAgrees(t: Token, input: Reading, execWorks: bool)
    requires t.loc == Handling(EcuNotWorking)
    ensures MonitorSwitch(Place(t), EcuNotWorking, input, execWorks) == Placed(TokenMonitor(t, input, execWorks))
  {}

  lemma SwitchAgrees(t: Token, input: Reading, execWorks: bool)
    requires Carries(t) && t.loc.Handling? && t.loc.ev != EcuNotWorking
    ensures MonitorSwitch(Place(t), t.loc.ev, input, execWorks) == Placed(TokenMonitor(t, input, execWorks))
  {
    PostToEmpty(CalcDistance);
    PostToEmpty(RingBell);
    PostToEmpty(MotionScanOn);
  }

  lemma MonitorCarries(t: Token, input: Reading, execWorks: bool)
    requires Carries(t)
    ensures CarriesOn(TokenMonitor(t, input, execWorks))
  {}

  lemma MonitorAgrees(t: Token, input: Reading, execWorks: bool)
    requires Carries(t)
    ensures MonitorStep(Place(t), input, execWorks) == Placed(TokenMonitor(t, input, execWorks))
    ensures CarriesOn(TokenMonitor(t, input, execWorks))
  {
    MonitorCarries(t, input, execWorks);
    if t.loc == Handling(EcuNotWorking) {
      RebootAgrees(t, input, execWorks);
    } else if t.loc.Handling? {
      SwitchAgrees(t, input, execWorks);
    } else {
      PostToEmpty(MotionScanOn);
    }
  }

  lemma FirstFrame(buf: Buffer, c: Command)
    ensures ReadInto(buf, Frame(c)) == Frame(c)
    ensures Frame(c)[ReadSize(Frame(c))..] == ""
    ensures StrEnum(Some(Frame(c))) == c
  {
    assert Frame(c) + "" == Frame(c);
    ReadRecovers(buf, c, "");
  }

  lemma MotionAgrees(t: Token, input: Reading)
    requires Carries(t)
    ensures MotionStep(Place(t), input) == Placed(TokenMotion(t, input))
    ensures CarriesOn(TokenMotion(t, input))
  {
    if t.loc.ScanFrame? { FirstFrame(t.motionBuf, MotionScanOn); }
  }

  lemma DistanceAgrees(t: Token, input: Reading)
    requires Carries(t)
    ensures DistanceStep(Place(t), input) == Placed(TokenDistance(t, input))
    ensures CarriesOn(TokenDistance(t, input))
  {
    if t.loc.DistanceFrame? { FirstFrame(ZEROS, CalcDistance); }
  }

  lemma BellAgrees(t: Token)
    requires Carries(t)
    ensures BellStep(Place(t)) == Placed(TokenBell(t))
    ensures CarriesOn(TokenBell(t))
  {
    if t.loc.BellFrame? { FirstFrame(t.bellBuf, t.loc.c); }
  }

  lemma ExpireAgrees(t: Token, id: TimerId)
    requires Carries(t)
    ensures ExpireStep(Place(t), id) == Placed(TokenExpire(t, id))
    ensures CarriesOn(TokenExpire(t, id))
  {}

  /** The handlers that stop their timer and post. */
  predicate Posting(h: Handler) {
    h in {BellStop, BellPost, ResetStop, ResetPost}
  }

  lemma PostingAgrees(t: Token)
    requires Carries(t) && t.loc.InHandler? && Posting(t.loc.h)
    ensures HandlerStep(Place(t), 0) == Placed(TokenHandler(t, 0))
    ensures CarriesOn(TokenHandler(t, 0))
  {}

  lemma CountingAgrees(t: Token)
    requires Carries(t) && t.loc.InHandler? && !Posting(t.loc.h)
    ensures HandlerStep(Place(t), 0) == Placed(TokenHandler(t, 0))
    ensures CarriesOn(TokenHandler(t, 0))
  {}

  lemma HandlerAgrees(t: Token, i: nat)
    requires Carries(t)
    ensures HandlerStep(Place(t), i) == Placed(TokenHandler(t, i))
    ensures CarriesOn(TokenHandler(t, i))
  {
    if t.loc.InHandler? && i == 0 {
      if Posting(t.loc.h) { PostingAgrees(t); } else { CountingAgrees(t); }
    }
  }

  /** The two machines agree on every action: blocked together, or moving together and showing the same. */
  lemma StepAgrees(t: Token, a: Action)
    requires Carries(t)
    ensures Step(Place(t), a) == Placed(TokenStep(t, a))
    ensures CarriesOn(TokenStep(t, a))
  {
    match a
    case Tick(_) =>
    case Monitor(input, execWorks) => MonitorAgrees(t, input, execWorks);
    case Motion(input) => MotionAgrees(t, input);
    case Distance(input) => DistanceAgrees(t, input);
    case Bell => BellAgrees(t);
    case Expire(id) => ExpireAgrees(t, id);
    case RunHandler(i) => HandlerAgrees(t, i);
  }
}
