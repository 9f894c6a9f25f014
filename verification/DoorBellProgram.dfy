/**
  The door-bell program with its global variables updated in place, one method per thread turn.

  The object remembers, as ghost state, which turns it has taken; `Valid` says that its variables are what that
  run leads to. Each turn is proved against the matching step of `DoorBellSystem`, so every theorem about runs
  holds of every object that is only changed through its methods.
 */
module DoorBellProgram {
  import opened Options
  import opened PipeFrames
  import opened DoorBellSystem
  import opened DoorBellRuns

  lemma RunMore(t0: nat, actions: seq<Action>, a: Action)
    ensures Run(t0, actions + [a]) == Extend(Run(t0, actions), a)
  {
    assert (actions + [a])[..|actions|] == actions;
  }

  /** The events the monitor answers with a command. */
  predicate Commands(ev: Event) {
    ev in {MotionDetected, ValidDistance, InvalidDistance, DoorWaitExpiry}
  }

  lemma CommandSwitch(s: State, ev: Event, input: Reading)
    requires Commands(ev)
    ensures MonitorSwitch(s, ev, input, true).s ==
            s.(monitor := MonitorReceive,
               pipe1 := if ev == InvalidDistance then s.pipe1 + Frame(MotionScanOn) else s.pipe1,
               pipe2 := if ev == MotionDetected then s.pipe2 + Frame(CalcDistance) else s.pipe2,
               pipe3 := if ev in {ValidDistance, DoorWaitExpiry} then s.pipe3 + Frame(RingBell) else s.pipe3)
  {}

  class Program {
    var now: nat
    var monitor: MonitorPc
    var motion: WorkerPc
    var distance: WorkerPc
    var bell: WorkerPc
    var monitorBuf: Buffer
    var motionBuf: Buffer
    var distanceBuf: Buffer
    var bellBuf: Buffer
    var pipe1: string
    var pipe2: string
    var pipe3: string
    var queue: seq<Event>
    var bellTimer: Timer
    var waitTimer: Timer
    var resetTimer: Timer
    var handlers: seq<Handler>
    var count: int

    ghost const bootTime: nat
    ghost var taken: seq<Action>

    ghost function Snapshot(): State
      reads this
    {
      State(now, monitor, motion, distance, bell, motionBuf, distanceBuf, bellBuf,
            pipe1, pipe2, pipe3, queue, bellTimer, waitTimer, resetTimer, handlers, count)
    }

    ghost predicate Valid()
      reads this
    {
      Run(bootTime, taken).History? && Run(bootTime, taken).s == Snapshot()
    }

    constructor (now: nat)
      ensures Valid() && taken == [] && bootTime == now && Snapshot() == Init(now)
    {
      this.now := now;
      monitor := MonitorBoot;
      motion, distance, bell := WorkerRead, WorkerRead, WorkerRead;
      monitorBuf, motionBuf, distanceBuf, bellBuf := ZEROS, ZEROS, ZEROS, ZEROS;
      pipe1, pipe2, pipe3, queue := "", "", "", [];
      bellTimer, waitTimer, resetTimer := Idle, Idle, Idle;
      handlers := [];
      count := 0;
      bootTime := now;
      taken := [];
    }

    /** What a turn must achieve: the step of the system if it is enabled, nothing otherwise. */
    twostate predicate Took(a: Action, step: Outcome, ran: bool)
      reads this
    {
      match step
      case Blocked => !ran && Snapshot() == old(Snapshot()) && taken == old(taken)
      case Moved(s, _) => ran && Snapshot() == s && taken == old(taken) + [a]
    }

    /** Records that action `a` led from `before` to the present state. */
    ghost method Note(before: State, a: Action)
      requires Run(bootTime, taken).History? && Run(bootTime, taken).s == before
      requires Step(before, a).Moved? && Step(before, a).s == Snapshot()
      modifies this`taken
      ensures Valid() && taken == old(taken) + [a]
    {
      RunMore(bootTime, taken, a);
      taken := taken + [a];
    }

    // ----- Library calls

    /** `strncpy` into the monitor's buffer, as before each of its posts. */
    method Prepare(c: Command)
      modifies this`monitorBuf
      ensures monitorBuf == Frame(c)
    {
      FrameIgnoresStale(monitorBuf, c);
      monitorBuf := Strncpy(monitorBuf, Name(c), MAX_MESSAGE_SIZE);
    }

    method PostMessageToQ(ev: Event)
      modifies this`queue
      ensures queue == old(queue) + [ev]
    {
      queue := queue + [ev];
    }

    /** The new process image: every variable at its initial value. */
    method StartAfresh()
      modifies this
      ensures Snapshot() == Init(old(now)) && taken == old(taken)
    {
      StartChannels();
      StartTimers();
      monitor := MonitorBoot;
      motion, distance, bell := WorkerRead, WorkerRead, WorkerRead;
    }

    method StartChannels()
      modifies this`motionBuf, this`distanceBuf, this`bellBuf, this`pipe1, this`pipe2, this`pipe3, this`queue
      ensures motionBuf == distanceBuf == bellBuf == ZEROS
      ensures pipe1 == pipe2 == pipe3 == "" && queue == []
    {
      motionBuf, distanceBuf, bellBuf := ZEROS, ZEROS, ZEROS;
      pipe1, pipe2, pipe3, queue := "", "", "", [];
    }

    method StartTimers()
      modifies this`bellTimer, this`waitTimer, this`resetTimer, this`handlers, this`count
      ensures bellTimer == waitTimer == resetTimer == Idle && handlers == [] && count == 0
    {
      bellTimer, waitTimer, resetTimer := Idle, Idle, Idle;
      handlers, count := [], 0;
    }

    /** The part of `process_reboot` before `execl`. */
    method ReleaseResources()
      modifies this`monitor, this`motion, this`distance, this`bell, this`bellTimer, this`waitTimer, this`resetTimer
      ensures bellTimer == waitTimer == resetTimer == Deleted
      ensures motion == distance == bell == WorkerCancelled && monitor == MonitorReceive
    {
      bellTimer, waitTimer, resetTimer := Deleted, Deleted, Deleted;
      motion, distance, bell := WorkerCancelled, WorkerCancelled, WorkerCancelled;
      monitor := MonitorReceive;
    }

    /** `process_reboot`, after which either the new process image starts or the old monitor carries on. */
    method ProcessReboot(execWorks: bool)
      modifies this
      ensures Snapshot() == DoorBellSystem.ProcessReboot(old(Snapshot()), execWorks) && taken == old(taken)
    {
      ReleaseResources();
      if execWorks {
        StartAfresh();
      }
    }

    // ----- Thread turns

    method Wait(seconds: nat)
      requires Valid()
      modifies this`now, this`taken
      ensures Valid() && Took(Tick(seconds), Moved(old(Snapshot()).(now := old(now) + seconds), None), true)
    {
      now := now + seconds;
      Note(old(Snapshot()), Tick(seconds));
    }

    method PostScan()
      modifies this`monitorBuf, this`pipe1
      ensures pipe1 == old(pipe1) + Frame(MotionScanOn)
    {
      Prepare(MotionScanOn);
      pipe1 := pipe1 + monitorBuf;
    }

    method PostDistance()
      modifies this`monitorBuf, this`pipe2
      ensures pipe2 == old(pipe2) + Frame(CalcDistance)
    {
      Prepare(CalcDistance);
      pipe2 := pipe2 + monitorBuf;
    }

    method PostRing()
      modifies this`monitorBuf, this`pipe3
      ensures pipe3 == old(pipe3) + Frame(RingBell)
    {
      Prepare(RingBell);
      pipe3 := pipe3 + monitorBuf;
    }

    /** The monitor's `switch`, for the events it answers with a command. */
    method MonitorCommand(ev: Event)
      requires monitor == MonitorHandle(ev) && Commands(ev)
      modifies this`monitor, this`monitorBuf, this`pipe1, this`pipe2, this`pipe3
      ensures monitor == MonitorReceive
      ensures pipe1 == if ev == InvalidDistance then old(pipe1) + Frame(MotionScanOn) else old(pipe1)
      ensures pipe2 == if ev == MotionDetected then old(pipe2) + Frame(CalcDistance) else old(pipe2)
      ensures pipe3 == if ev in {ValidDistance, DoorWaitExpiry} then old(pipe3) + Frame(RingBell) else old(pipe3)
    {
      monitor := MonitorReceive;
      if ev == MotionDetected {
        PostDistance();
      } else if ev == InvalidDistance {
        PostScan();
      } else {
        PostRing();
      }
    }

    /** The monitor's `switch`, for the events it answers with a timer, a door reading or nothing. */
    method MonitorQuiet(ev: Event, input: Reading)
      requires monitor == MonitorHandle(ev) && ev != EcuNotWorking && !Commands(ev)
      modifies this`monitor, this`resetTimer
      ensures Snapshot() == MonitorSwitch(old(Snapshot()), ev, input, true).s
    {
      monitor := MonitorReceive;
      if ev == RingBellExpiry {
        if input.value == DOOR_OPEN {
          monitor := MonitorPollDoor;
        } else if input.value == DOOR_CLOSED {
          monitor := MonitorStartWait;
        }
      } else if ev == DoorWaitRetryEnd {
        resetTimer := if resetTimer.Deleted? then Deleted else Armed(now + RESET_SECONDS);
      }
    }

    /** The monitor's `switch`, for every event but ECU_NOT_WORKING. */
    method MonitorDispatch(ev: Event, input: Reading)
      requires monitor == MonitorHandle(ev) && ev != EcuNotWorking
      modifies this`monitor, this`monitorBuf, this`pipe1, this`pipe2, this`pipe3, this`resetTimer
      ensures Snapshot() == MonitorSwitch(old(Snapshot()), ev, input, true).s
    {
      if Commands(ev) {
        MonitorCommand(ev);
        CommandSwitch(old(Snapshot()), ev, input);
      } else {
        MonitorQuiet(ev, input);
      }
    }

    /** The monitor's turns outside its `switch`. */
    method MonitorMove(input: Reading) returns (ran: bool)
      requires !monitor.MonitorHandle?
      modifies this`monitor, this`monitorBuf, this`pipe1, this`queue, this`waitTimer
      ensures match MonitorStep(old(Snapshot()), input, true)
              case Blocked => !ran && Snapshot() == old(Snapshot())
              case Moved(s, _) => ran && Snapshot() == s
    {
      ran := true;
      match monitor {
        case MonitorReceive =>
          if queue == [] { return false; }
          monitor, queue := MonitorHandle(queue[0]), queue[1..];
        case MonitorPollDoor =>
          if input.value != DOOR_OPEN { monitor := MonitorPostScan; }
        case MonitorStartWait =>
          waitTimer := if waitTimer.Deleted? then Deleted else Armed(now + DOOR_WAIT_SECONDS);
          monitor := MonitorReceive;
        case MonitorBoot =>
          PostScan();
          monitor := MonitorReceive;
        case MonitorPostScan =>
          PostScan();
          monitor := MonitorReceive;
      }
    }

    method MonitorTurn(input: Reading, execWorks: bool) returns (ran: bool)
      requires Valid()
      modifies this
      ensures Valid() && Took(Monitor(input, execWorks), MonitorStep(old(Snapshot()), input, execWorks), ran)
    {
      ran := true;
      if !monitor.MonitorHandle? {
        ran := MonitorMove(input);
        if !ran { return; }
      } else if monitor.ev == EcuNotWorking {
        ProcessReboot(execWorks);
      } else {
        MonitorDispatch(monitor.ev, input);
      }
      Note(old(Snapshot()), Monitor(input, execWorks));
    }

    method MotionTurn(input: Reading) returns (ran: bool)
      requires Valid()
      modifies this`motion, this`motionBuf, this`pipe1, this`queue, this`taken
      ensures Valid() && Took(Motion(input), MotionStep(old(Snapshot()), input), ran)
    {
      ran := true;
      match motion {
        case WorkerRead =>
          if pipe1 == "" { return false; }
          motionBuf, pipe1, motion := ReadInto(motionBuf, pipe1), pipe1[ReadSize(pipe1)..], WorkerSwitch;
        case WorkerSwitch =>
          motion := if StrEnum(Some(motionBuf)) == MotionScanOn then WorkerSense else WorkerRead;
        case WorkerSense =>
          if input.status != ECU_WORKING {
            motion := WorkerPost(EcuNotWorking);
          } else if input.value == 1 {
            motion := WorkerPost(MotionDetected);
          }
        case WorkerPost(ev) =>
          PostMessageToQ(ev);
          motion := WorkerRead;
        case WorkerCancelled => return false;
      }
      Note(old(Snapshot()), Motion(input));
    }

    method DistanceTurn(input: Reading) returns (ran: bool)
      requires Valid()
      modifies this`distance, this`distanceBuf, this`pipe2, this`queue, this`taken
      ensures Valid() && Took(Distance(input), DistanceStep(old(Snapshot()), input), ran)
    {
      ran := true;
      match distance {
        case WorkerRead =>
          if pipe2 == "" { return false; }
          distanceBuf, pipe2, distance := ReadInto(ZEROS, pipe2), pipe2[ReadSize(pipe2)..], WorkerSwitch;
        case WorkerSwitch =>
          distance := if StrEnum(Some(distanceBuf)) == CalcDistance then WorkerSense else WorkerRead;
        case WorkerSense =>
          if input.status == ECU_WORKING {
            if MIN_DISTANCE <= input.value && input.value <= MAX_DISTANCE {
              distance := WorkerPost(ValidDistance);
            } else {
              distance := WorkerPost(InvalidDistance);
            }
          } else {
            distance := WorkerPost(EcuNotWorking);
          }
        case WorkerPost(ev) =>
          PostMessageToQ(ev);
          distance := WorkerRead;
        case WorkerCancelled => return false;
      }
      Note(old(Snapshot()), Distance(input));
    }

    /** The bell thread's `switch`. */
    method BellDispatch(ev: Event)
      modifies this`bell, this`bellTimer, this`queue
      ensures bell == WorkerRead
      ensures bellTimer == if ev == RingBell then DoorBellSystem.TimerStart(old(bellTimer), now, BELL_SECONDS)
                           else old(bellTimer)
      ensures queue == if ev == RingBellExpiry then old(queue) + [RingBellExpiry] else old(queue)
    {
      bell := WorkerRead;
      if ev == RingBell {
        bellTimer := if bellTimer.Deleted? then Deleted else Armed(now + BELL_SECONDS);
      } else if ev == RingBellExpiry {
        PostMessageToQ(RingBellExpiry);
      }
    }

    method BellTurn() returns (ran: bool)
      requires Valid()
      modifies this`bell, this`bellBuf, this`pipe3, this`queue, this`bellTimer, this`taken
      ensures Valid() && Took(Bell, BellStep(old(Snapshot())), ran)
    {
      ran := true;
      match bell {
        case WorkerRead =>
          if pipe3 == "" { return false; }
          bellBuf, pipe3, bell := ReadInto(bellBuf, pipe3), pipe3[ReadSize(pipe3)..], WorkerSwitch;
        case WorkerSwitch => BellDispatch(StrEnum(Some(bellBuf)));
        case _ => return false;
      }
      Note(old(Snapshot()), Bell);
    }

    /** The kernel fires a due one-shot timer: it is disarmed and its handler starts in a thread of its own. */
    method Fire(id: TimerId) returns (ran: bool)
      requires Valid()
      modifies this`bellTimer, this`waitTimer, this`resetTimer, this`handlers, this`taken
      ensures Valid() && Took(Expire(id), ExpireStep(old(Snapshot()), id), ran)
    {
      var timer := match id case BellTimer => bellTimer case WaitTimer => waitTimer case ResetTimer => resetTimer;
      if !timer.Armed? || timer.due > now { return false; }
      match id {
        case BellTimer => bellTimer, handlers := Idle, handlers + [BellStop];
        case WaitTimer => waitTimer, handlers := Idle, handlers + [WaitLoad];
        case ResetTimer => resetTimer, handlers := Idle, handlers + [ResetStop];
      }
      ran := true;
      Note(old(Snapshot()), Expire(id));
    }

    /** Writes a command from a handler's own, zeroed buffer. */
    method PostFromHandler(c: Command) returns (buf: Buffer)
      ensures buf == Frame(c)
    {
      buf := Strncpy(ZEROS, Name(c), MAX_MESSAGE_SIZE);
    }

    /** The next statement of a door-bell or reset handler. */
    method PostingStatement(i: nat)
      requires i < |handlers|
      requires handlers[i] in {BellStop, BellPost, ResetStop, ResetPost}
      modifies this`bellTimer, this`resetTimer, this`handlers, this`pipe1, this`pipe3
      ensures HandlerStep(old(Snapshot()), i).Moved? && Snapshot() == HandlerStep(old(Snapshot()), i).s
    {
      var h := handlers[i];
      if h == BellStop {
        bellTimer := if bellTimer.Deleted? then Deleted else Idle;
        handlers := handlers[i := BellPost];
      } else if h == ResetStop {
        resetTimer := if resetTimer.Deleted? then Deleted else Idle;
        handlers := handlers[i := ResetPost];
      } else {
        handlers := handlers[..i] + handlers[i + 1..];
        if h == BellPost {
          var buf := PostFromHandler(RingBellExpiry);
          pipe3 := pipe3 + buf;
        } else {
          var buf := PostFromHandler(MotionScanOn);
          pipe1 := pipe1 + buf;
        }
      }
    }

    /** The next statement of a door-wait handler. */
    method WaitStatement(i: nat)
      requires i < |handlers|
      requires handlers[i] !in {BellStop, BellPost, ResetStop, ResetPost}
      modifies this`waitTimer, this`handlers, this`queue, this`count
      ensures HandlerStep(old(Snapshot()), i).Moved? && Snapshot() == HandlerStep(old(Snapshot()), i).s
    {
      match handlers[i] {
        case WaitLoad => handlers := handlers[i := WaitStore(count)];
        case WaitStore(loaded) => count, handlers := loaded + 1, handlers[i := WaitStop];
        case WaitStop =>
          waitTimer := if waitTimer.Deleted? then Deleted else Idle;
          handlers := handlers[i := WaitTest];
        case WaitTest =>
          if count >= MAX_RETRIES {
            handlers := handlers[i := WaitPost(DoorWaitRetryEnd)];
          } else {
            handlers := handlers[i := WaitPost(DoorWaitExpiry)];
          }
        case WaitPost(ev) =>
          PostMessageToQ(ev);
          handlers := handlers[..i] + handlers[i + 1..];
      }
    }

    method HandlerTurn(i: nat) returns (ran: bool)
      requires Valid()
      modifies this`bellTimer, this`waitTimer, this`resetTimer, this`handlers, this`pipe1, this`pipe3
      modifies this`queue, this`count, this`taken
      ensures Valid() && Took(RunHandler(i), HandlerStep(old(Snapshot()), i), ran)
    {
      if i >= |handlers| { return false; }
      if handlers[i] in {BellStop, BellPost, ResetStop, ResetPost} {
        PostingStatement(i);
      } else {
        WaitStatement(i);
      }
      ran := true;
      Note(old(Snapshot()), RunHandler(i));
    }

    /** So an object changed only through its turns never holds more than one unit of work. */
    lemma OneTokenHere()
      requires Valid()
      ensures WorkInFlight(Snapshot()) <= 1
      ensures WorkInFlight(Snapshot()) == 0 <==> Stuck(Snapshot())
    {
      OneTokenInFlight(bootTime, taken);
    }
  }
}
