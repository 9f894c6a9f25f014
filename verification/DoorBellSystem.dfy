/**
  The door-bell program as a system of threads: the monitor, three workers, three one-shot timers and the
  handler threads their expiries start, connected by three pipes and one message queue.

  A run is any sequence of actions. An action picks who takes its next atomic step and supplies whatever that
  step reads from the outside: a sensor value, the outcome of `execl`, or how far the clock moves.
 */
module DoorBellSystem {
  import opened Options
  import opened PipeFrames

  const MIN_DISTANCE := 4
  const MAX_DISTANCE := 8
  const ECU_WORKING := 0
  const DOOR_OPEN := 0
  const DOOR_CLOSED := 1
  const BELL_SECONDS: nat := 3
  const DOOR_WAIT_SECONDS: nat := 30
  const RESET_SECONDS: nat := 600
  const MAX_RETRIES := 3

  /** What `get_value` returns for a sensor file. */
  datatype Reading = Reading(value: int, status: int)

  datatype MonitorPc =
    | MonitorBoot                  // about to post the first MOTION_SCAN_ON
    | MonitorReceive               // blocked in msgrcv
    | MonitorHandle(ev: Event)     // in the switch
    | MonitorPollDoor              // in the do-while that waits for the door to close
    | MonitorPostScan              // after that loop
    | MonitorStartWait             // about to start the 30-second timer

  datatype WorkerPc =
    | WorkerRead                   // blocked in read
    | WorkerSwitch                 // has a frame in its buffer
    | WorkerSense                  // about to read its sensor
    | WorkerPost(ev: Event)        // about to post to the queue
    | WorkerCancelled

  datatype Timer = Idle | Armed(due: nat) | Deleted

  datatype TimerId = BellTimer | WaitTimer | ResetTimer

  /** Where a running expiry handler is. The increment of the shared counter is a load and a store. */
  datatype Handler =
    | BellStop | BellPost
    | WaitLoad | WaitStore(loaded: int) | WaitStop | WaitTest | WaitPost(ev: Event)
    | ResetStop | ResetPost

  datatype State = State(
    now: nat,
    monitor: MonitorPc,
    motion: WorkerPc,
    distance: WorkerPc,
    bell: WorkerPc,
    motionBuf: Buffer,
    distanceBuf: Buffer,
    bellBuf: Buffer,
    pipe1: string,
    pipe2: string,
    pipe3: string,
    queue: seq<Event>,
    bellTimer: Timer,
    waitTimer: Timer,
    resetTimer: Timer,
    handlers: seq<Handler>,
    count: int)                    // door_wait_expiry_count

  function Init(now: nat): State {
    State(now, MonitorBoot, WorkerRead, WorkerRead, WorkerRead, ZEROS, ZEROS, ZEROS,
          "", "", "", [], Idle, Idle, Idle, [], 0)
  }

  datatype Action =
    | Tick(seconds: nat)
    | Monitor(input: Reading, execWorks: bool)
    | Motion(input: Reading)
    | Distance(input: Reading)
    | Bell
    | Expire(timer: TimerId)
    | RunHandler(i: nat)

  /** What an observer of the program sees: sensor readings, commands, expiries and reboots. */
  datatype Obs =
    | ScanOn
    | MotionReading(r: Reading)
    | DistanceReading(r: Reading)
    | Ring
    | BellExpired
    | DoorReading(r: Reading)
    | WaitPosted(ev: Event)
    | ResetExpired
    | Reboot(works: bool)

  /** The next state and what the step showed; `Blocked` when the chosen party cannot move. */
  datatype Outcome = Blocked | Moved(s: State, shown: Option<Obs>)

  // ----- Timers (door_timer.h)

  /** `timer_start`: (re)arms a one-shot timer; fails without effect on a deleted one. */
  function TimerStart(t: Timer, now: nat, seconds: nat): Timer {
    if t.Deleted? then Deleted else Armed(now + seconds)
  }

  /** `timer_stop`. */
  function TimerStop(t: Timer): Timer {
    if t.Deleted? then Deleted else Idle
  }

  function TimerOf(s: State, id: TimerId): Timer {
    match id
    case BellTimer => s.bellTimer
    case WaitTimer => s.waitTimer
    case ResetTimer => s.resetTimer
  }

  // ----- The monitor thread

  function MonitorStep(s: State, input: Reading, execWorks: bool): Outcome {
    match s.monitor
    case MonitorBoot =>
      Moved(s.(monitor := MonitorReceive, pipe1 := s.pipe1 + Frame(MotionScanOn)), Some(ScanOn))
    case MonitorReceive =>
      if s.queue == [] then Blocked
      else Moved(s.(monitor := MonitorHandle(s.queue[0]), queue := s.queue[1..]), None)
    case MonitorHandle(ev) => MonitorSwitch(s, ev, input, execWorks)
    case MonitorPollDoor =>
      Moved(s.(monitor := if input.value == DOOR_OPEN then MonitorPollDoor else MonitorPostScan),
            Some(DoorReading(input)))
    case MonitorPostScan =>
      Moved(s.(monitor := MonitorReceive, pipe1 := s.pipe1 + Frame(MotionScanOn)), Some(ScanOn))
    case MonitorStartWait =>
      Moved(s.(monitor := MonitorReceive, waitTimer := TimerStart(s.waitTimer, s.now, DOOR_WAIT_SECONDS)), None)
  }

  function MonitorSwitch(s: State, ev: Event, input: Reading, execWorks: bool): Outcome {
    match ev
    case MotionDetected =>
      Moved(s.(monitor := MonitorReceive, pipe2 := s.pipe2 + Frame(CalcDistance)), None)
    case ValidDistance =>
      Moved(s.(monitor := MonitorReceive, pipe3 := s.pipe3 + Frame(RingBell)), Some(Ring))
    case InvalidDistance =>
      Moved(s.(monitor := MonitorReceive, pipe1 := s.pipe1 + Frame(MotionScanOn)), Some(ScanOn))
    case RingBellExpiry =>
      Moved(s.(monitor := if input.value == DOOR_OPEN then MonitorPollDoor
                          else if input.value == DOOR_CLOSED then MonitorStartWait
                          else MonitorReceive),
            Some(DoorReading(input)))
    case EcuNotWorking =>
      Moved(ProcessReboot(s, execWorks), Some(Reboot(execWorks)))
    case DoorWaitExpiry =>
      Moved(s.(monitor := MonitorReceive, pipe3 := s.pipe3 + Frame(RingBell)), Some(Ring))
    case DoorWaitRetryEnd =>
      Moved(s.(monitor := MonitorReceive, resetTimer := TimerStart(s.resetTimer, s.now, RESET_SECONDS)), None)
    case _ =>
      Moved(s.(monitor := MonitorReceive), None)
  }

  /**
    `process_reboot`: deletes the timers, cancels the workers, then replaces the process image. When `execl`
    fails it returns and the monitor goes back to its queue.
   */
  function ProcessReboot(s: State, execWorks: bool): State {
    if execWorks then Init(s.now)
    else s.(monitor := MonitorReceive,
            motion := WorkerCancelled, distance := WorkerCancelled, bell := WorkerCancelled,
            bellTimer := Deleted, waitTimer := Deleted, resetTimer := Deleted)
  }

  // ----- The workers

  /** Motion thread: its buffer is never cleared. */
  function MotionStep(s: State, input: Reading): Outcome {
    match s.motion
    case WorkerRead =>
      if s.pipe1 == "" then Blocked
      else Moved(s.(motion := WorkerSwitch, motionBuf := ReadInto(s.motionBuf, s.pipe1),
                    pipe1 := s.pipe1[ReadSize(s.pipe1)..]), None)
    case WorkerSwitch =>
      Moved(s.(motion := if StrEnum(Some(s.motionBuf)) == MotionScanOn then WorkerSense else WorkerRead), None)
    case WorkerSense =>
      Moved(s.(motion := if input.status != ECU_WORKING then WorkerPost(EcuNotWorking)
                         else if input.value == 1 then WorkerPost(MotionDetected)
                         else WorkerSense),
            Some(MotionReading(input)))
    case WorkerPost(ev) => Moved(s.(motion := WorkerRead, queue := s.queue + [ev]), None)
    case WorkerCancelled => Blocked
  }

  predicate InRange(r: Reading) {
    MIN_DISTANCE <= r.value <= MAX_DISTANCE
  }

  /** Distance thread: clears its buffer before each read. */
  function DistanceStep(s: State, input: Reading): Outcome {
    match s.distance
    case WorkerRead =>
      if s.pipe2 == "" then Blocked
      else Moved(s.(distance := WorkerSwitch, distanceBuf := ReadInto(ZEROS, s.pipe2),
                    pipe2 := s.pipe2[ReadSize(s.pipe2)..]), None)
    case WorkerSwitch =>
      Moved(s.(distance := if StrEnum(Some(s.distanceBuf)) == CalcDistance then WorkerSense else WorkerRead), None)
    case WorkerSense =>
      Moved(s.(distance := WorkerPost(if input.status != ECU_WORKING then EcuNotWorking
                                      else if InRange(input) then ValidDistance
                                      else InvalidDistance)),
            Some(DistanceReading(input)))
    case WorkerPost(ev) => Moved(s.(distance := WorkerRead, queue := s.queue + [ev]), None)
    case WorkerCancelled => Blocked
  }

  /** Bell thread: RING_BELL starts the 3-second timer, its expiry is passed on to the monitor. */
  function BellStep(s: State): Outcome {
    match s.bell
    case WorkerRead =>
      if s.pipe3 == "" then Blocked
      else Moved(s.(bell := WorkerSwitch, bellBuf := ReadInto(s.bellBuf, s.pipe3),
                    pipe3 := s.pipe3[ReadSize(s.pipe3)..]), None)
    case WorkerSwitch =>
      (match StrEnum(Some(s.bellBuf))
       case RingBell =>
         Moved(s.(bell := WorkerRead, bellTimer := TimerStart(s.bellTimer, s.now, BELL_SECONDS)), None)
       case RingBellExpiry => Moved(s.(bell := WorkerRead, queue := s.queue + [RingBellExpiry]), None)
       case _ => Moved(s.(bell := WorkerRead), None))
    case _ => Blocked
  }

  // ----- Expiries and handlers

  /** A due timer disarms itself and starts a new handler thread, next to any that still run. */
  function ExpireStep(s: State, id: TimerId): Outcome {
    if !(TimerOf(s, id).Armed? && TimerOf(s, id).due <= s.now) then Blocked
    else
      match id
      case BellTimer => Moved(s.(bellTimer := Idle, handlers := s.handlers + [BellStop]), Some(BellExpired))
      case WaitTimer => Moved(s.(waitTimer := Idle, handlers := s.handlers + [WaitLoad]), None)
      case ResetTimer => Moved(s.(resetTimer := Idle, handlers := s.handlers + [ResetStop]), Some(ResetExpired))
  }

  /**
    One-shot timers: a stopped timer never fires, a started one fires once and not before its time, whatever it was
    doing when it was started, and a deleted one cannot be started.
   */
  lemma TimerLaw(s: State, id: TimerId, t: Timer, since: nat, seconds: nat)
    ensures TimerOf(s, id) == TimerStop(t) ==> ExpireStep(s, id).Blocked?
    ensures TimerOf(s, id) == TimerStart(t, since, seconds) ==>
              (ExpireStep(s, id).Moved? <==> !t.Deleted? && since + seconds <= s.now)
    ensures ExpireStep(s, id).Moved? ==> ExpireStep(ExpireStep(s, id).s, id).Blocked?
  {}

  function HandlerStep(s: State, i: nat): Outcome {
    if i >= |s.handlers| then Blocked
    else
      var rest := s.handlers[..i] + s.handlers[i + 1..];
      match s.handlers[i]
      case BellStop =>
        Moved(s.(bellTimer := TimerStop(s.bellTimer), handlers := s.handlers[i := BellPost]), None)
      case BellPost =>
        Moved(s.(pipe3 := s.pipe3 + Frame(RingBellExpiry), handlers := rest), None)
      case WaitLoad =>
        Moved(s.(handlers := s.handlers[i := WaitStore(s.count)]), None)
      case WaitStore(loaded) =>
        Moved(s.(count := loaded + 1, handlers := s.handlers[i := WaitStop]), None)
      case WaitStop =>
        Moved(s.(waitTimer := TimerStop(s.waitTimer), handlers := s.handlers[i := WaitTest]), None)
      case WaitTest =>
        var ev := if s.count >= MAX_RETRIES then DoorWaitRetryEnd else DoorWaitExpiry;
        Moved(s.(handlers := s.handlers[i := WaitPost(ev)]), None)
      case WaitPost(ev) =>
        Moved(s.(queue := s.queue + [ev], handlers := rest), Some(WaitPosted(ev)))
      case ResetStop =>
        Moved(s.(resetTimer := TimerStop(s.resetTimer), handlers := s.handlers[i := ResetPost]), None)
      case ResetPost =>
        Moved(s.(pipe1 := s.pipe1 + Frame(MotionScanOn), handlers := rest), Some(ScanOn))
  }

  function Step(s: State, a: Action): Outcome {
    match a
    case Tick(seconds) => Moved(s.(now := s.now + seconds), None)
    case Monitor(input, execWorks) => MonitorStep(s, input, execWorks)
    case Motion(input) => MotionStep(s, input)
    case Distance(input) => DistanceStep(s, input)
    case Bell => BellStep(s)
    case Expire(id) => ExpireStep(s, id)
    case RunHandler(i) => HandlerStep(s, i)
  }

  // ----- Runs

  /** An observation and the clock when it was made. */
  datatype Stamped = Stamped(time: nat, obs: Obs)

  datatype History = Impossible | History(s: State, trace: seq<Stamped>)

  function Shown(now: nat, shown: Option<Obs>): seq<Stamped> {
    if shown.None? then [] else [Stamped(now, shown.value)]
  }

  function Extend(h: History, a: Action): History {
    if h.Impossible? then Impossible
    else
      match Step(h.s, a)
      case Blocked => Impossible
      case Moved(s', shown) => History(s', h.trace + Shown(h.s.now, shown))
  }

  /** Continues a history with `actions`, one after the other. */
  function RunFrom(h: History, actions: seq<Action>): History {
    if actions == [] then h
    else Extend(RunFrom(h, actions[..|actions| - 1]), actions[|actions| - 1])
  }

  /** The run that takes `actions` from boot at clock reading `t0`. */
  function Run(t0: nat, actions: seq<Action>): History {
    RunFrom(History(Init(t0), []), actions)
  }
}
