# Verification of the Linux demo programs with state

These Dafny modules model the parts of the repository whose correctness rests on more than one function: a door-bell
controller made of threads, pipes, a queue and timers; three turn-taking programs; shared counters under two levels
of locking; and two character drivers. Check everything with `dafny verify dfyconfig.toml`.

## What is modelled

**Door bell** (`PipeFrames`, `DoorBellSystem`, `DoorBellToken`, `DoorBellRuns`, `DoorBellGrammar`, `DoorBellVisits`,
`DoorBellLanguage`, `DoorBellProgram`). A run is any sequence of actions: which thread, timer or handler takes its next
atomic step, with whatever that step reads from a sensor, how far the clock moves, and whether `execl` works. Pipes are
byte strings and readers keep their stale buffers. Nothing assumes that one handler or one timer is active: handlers
are a list, timers are independent, and the increment of the retry counter is a load and a store. The program is proved
equivalent, step for step, to a sequential machine that moves one token; from that follow conservation, absence of
races, the bound on each cycle and an exact timed grammar of everything the program shows. `PlainLanguage` says the
same without the grammar: what may come next, and when, is read off the last things shown, in plain numbers. The
statements about retries, rings and durations are theorems about that language. Two facts of the code are kept as they
are: nothing resets the retry counter between visitors, and a door value that is neither 0 nor 1 stops the program for
good. So does an `execl` that fails, because `process_reboot` then returns to a monitor whose workers and timers are
gone.

**Turn-taking rings** (`TurnOrder`, `SemaphoreRing`, `ConditionRing`, `StartOrders`, `Alternation`), for any number of
rounds and, for the two rings, any number of threads. Wait sets are explicit and a signal wakes exactly one waiter. The
condition-variable ring is proved under the start order that the program's `usleep` calls are there for;
`StartOrderDecides` shows, over all schedules, that exactly this order makes it print correctly, and
`ReturnsExactlyWhen` (in `StartOrders`) that of the other orders only rotations are sure to end.

**Two-level locking** (`TwoLevelLock`, `TwoLevelRuns`, `TwoLevelValues`, `TwoLevelProgram`), for any number of
processes and iterations, with failing thread creation, failing semaphore calls and kills at any point. `sem_lock`
carries on without the lock when `semop` fails, so exclusion holds exactly if that cannot happen (`BothLocksNeeded`);
runs still end and the lock stays obtainable (`RunsEnd`, `OnlyStuckWhenDone`), and SEM_UNDO bookkeeping stays exact for
the two children the program has but not for three (`ConservedExactlyWhen`). An unlock that fails is made good by
SEM_UNDO at exit. A child that dies while its threads are at work leaves its share of the values behind (`SharedValues`
says how much, `RestoredExactlyWhen` what it takes to get them back).

**Drivers** (`DeviceBuffer`, `SeekableDriver`, `CircularList`, `NodeText`, `ClearingDriver`, `ClearingLaws`), for
buffers of any size. `ClearingLaws` says from the calls' own arguments what reads and writes return and leave. The file
header of the clearing driver promises that the proc file shows the number of bytes in the buffer. The code updates it
only for writes of 1 to 1023 bytes, and only after giving the semaphore back, so writes of different openers overlap: a
write is two steps here, and `NodeIsTruthful`, `SerialWritesAreShown` and `ReliableExactlyWhen` say exactly when the
promise holds.

Each concurrent program is given twice: as a step function over values, about which the theorems are proved, and as a
class named `Program` (or `Driver`) whose methods change its variables in place. Each method is proved against the
step function; the `Valid` predicate of a concurrent program says that its variables are what its recorded run leads to,
and a method `RunAll` of the rings and the two-level lock runs the object to its end under an arbitrary scheduler.

The theorems assume, as the environment's part: pipe, queue and timer calls succeed, `read` on an empty pipe and
`msgrcv` on an empty queue block, a timer fires no earlier than it is due, a cancelled thread stops in the `read` it is
blocked in (`Discipline` shows that it is), condition variables have no spurious wake-ups, and calls on mutexes,
condition variables and the semaphores of the ring succeed and are atomic. The System V semaphore calls of the
two-level lock may fail.

## Model

| member | source | states |
|---|---|---|
| `PipeFrames.StrEnumExact` | linux_task/door_bell_system_sw_design/door_bell_func.c:193-226 | the event names are told apart by the C string in the buffer alone: a buffer maps to a command if and only if its bytes up to the first NUL are that command's name, spelled out, and to no event without a name |
| `PipeFrames.FrameIgnoresStale` | linux_task/door_bell_system_sw_design/door_bell.c:564-568 | a writer's reused buffer leaves no trace in a frame: after strncpy all 20 bytes depend only on the name |
| `PipeFrames.ReadRecovers` | linux_task/door_bell_system_sw_design/door_bell_func.c:100-113 | a read of 20 bytes from a pipe that starts with a frame takes exactly that frame and recovers its command, whatever the reader's buffer held |
| `PipeFrames.FramingRoundTrip` | linux_task/door_bell_system_sw_design/door_bell_func.c:79-113 | for every interleaving of posts and reads by any threads with any stale buffers, events are received in the order sent, none lost or invented, and the pipe holds exactly the whole frames still unread |
| `DoorBellToken.StepAgrees` | linux_task/door_bell_system_sw_design/door_bell.c:272-825 | from every state with one token, the threads, pipes, queue, timers and handlers and the sequential token machine allow the same actions, show the same, and stay in step |
| `DoorBellRuns.RunsAgree` | linux_task/door_bell_system_sw_design/door_bell.c:272-825 | for every schedule and input the whole program does exactly what the token machine does |
| `DoorBellRuns.OneTokenInFlight` | linux_task/door_bell_system_sw_design/door_bell.c:272-825 | in every reachable state frames, messages, armed timers, running handlers and busy threads add up to at most one, and to none exactly when nobody can ever move again |
| `DoorBellRuns.NoRace` | linux_task/door_bell_system_sw_design/door_bell.c:272-825 | no two different parties are ever able to move in the same state |
| `DoorBellRuns.Discipline` | linux_task/door_bell_system_sw_design/door_bell.c:743-825 | in every reachable state: each pipe carries only its reader's commands, no default branch is next, at most one timer is armed and one handler runs, a handler's timer_stop finds nothing armed, the retry counter is not written between load and store, and a reboot starts with everything at rest |
| `DoorBellRuns.CycleEnds` | linux_task/door_bell_system_sw_design/door_bell.c:272-825 | between two motion scans, or a scan and a reboot, no run takes more than 69 steps besides clock ticks, no-motion polls and door-still-open polls |
| `DoorBellGrammar.TracesObeyGrammar` | linux_task/door_bell_system_sw_design/door_bell.c:272-825 | every run's timed trace is a word of the timed grammar; the grammar's count of expired waits is the program's counter, and its end is the program's deadlock |
| `DoorBellGrammar.GrammarIsExact` | linux_task/door_bell_system_sw_design/door_bell.c:272-825 | conversely every timed word of the grammar is shown by some schedule with some inputs |
| `DoorBellGrammar.ProgramLanguage` | linux_task/door_bell_system_sw_design/door_bell.c:272-825 | the set of timed traces of the program is the language of the grammar, both ways |
| `DoorBellVisits.RetryTheorem` | linux_task/door_bell_system_sw_design/door_bell.c:766-801 | with n wait handlers completed since boot, DOOR_WAIT_EXPIRY was posted min(n, 2) times and DOOR_WAIT_RETRY_END max(n - 2, 0) times: the counter is never reset between visitors |
| `DoorBellVisits.RingTheorem` | linux_task/door_bell_system_sw_design/door_bell.c:582-695 | bell rings equal valid distances plus retries, less exactly one when the last thing shown is such a distance or retry: each is answered by one ring, at once |
| `DoorBellVisits.VisitorTheorem` | linux_task/door_bell_system_sw_design/door_bell.c:296-403 | before every ring there is a distance reading of 4 to 8 with a working sensor, right after a motion reading of 1 with a working sensor, with no cycle ended in between |
| `DoorBellVisits.CycleTheorem` | linux_task/door_bell_system_sw_design/door_bell.c:610-825 | a cycle that starts with c waits counted rings at most max(1, 3 - c) times; if it ends through the reset timer it rings exactly that often and lasts at least 33 seconds per ring plus 600 |
| `DoorBellVisits.DeadlockCauses` | linux_task/door_bell_system_sw_design/door_bell.c:610-661 | the program is stuck for good if and only if its last observation is a door value other than 0 and 1 read after a ring, or a failed execl |
| `DoorBellLanguage.WhatFollows` | linux_task/door_bell_system_sw_design/door_bell.c:272-825 | once the program has shown something, it can go on to show `o` if and only if `o` may follow, which depends in plain numbers on the last things shown: sensor status 0, motion 1, distance 4 to 8, door 0 and 1, 3, 30 and 600 seconds, three waits |
| `DoorBellLanguage.PlainLanguage` | linux_task/door_bell_system_sw_design/door_bell.c:272-825 | the program's timed traces are exactly the words in which everything may follow what comes before it |
| `DoorBellLanguage.DoorCheck` | linux_task/door_bell_system_sw_design/door_bell.c:610-661 | after a ring the door is read; an open door (0) is read again until it is not open, and then the scan is switched on; a closed one (1) at first sight is followed only by the end of a wait, at least 30 seconds later; any other first value by nothing |
| `DoorBellLanguage.Pauses` | linux_task/door_bell_system_sw_design/door_bell.c:470-825 | a ring is followed only by its expiry at least 3 seconds later, the end of the retries only by the reset at least 600 seconds later |
| `DoorBellLanguage.Visitors` | linux_task/door_bell_system_sw_design/door_bell.c:287-423 | a distance reading is followed by a ring exactly for a working sensor and 4 to 8, a motion reading by a distance reading exactly for a working sensor and 1, and either by a reboot exactly for a sensor that is not working |
| `DoorBellSystem.TimerLaw` | linux_task/door_bell_system_sw_design/door_timer.h:55-110 | a stopped timer never fires, a started one fires once and not before its time |
| `DoorBellProgram.Program.MonitorTurn` | linux_task/door_bell_system_sw_design/door_bell.c:540-722 | the monitor thread's next atomic step, over its variables in place, is the monitor step of the system and keeps the object on a run |
| `DoorBellProgram.Program.MonitorMove` | linux_task/door_bell_system_sw_design/door_bell.c:628-655 | the monitor outside its switch: first post, receive, door polling loop, arming the wait |
| `DoorBellProgram.Program.MotionTurn` | linux_task/door_bell_system_sw_design/door_bell.c:272-336 | the motion thread's next atomic step in place |
| `DoorBellProgram.Program.DistanceTurn` | linux_task/door_bell_system_sw_design/door_bell.c:365-428 | the distance thread's next atomic step in place |
| `DoorBellProgram.Program.BellTurn` | linux_task/door_bell_system_sw_design/door_bell.c:456-513 | the bell thread's next atomic step in place |
| `DoorBellProgram.Program.Fire` | linux_task/door_bell_system_sw_design/door_timer.h:55-82 | a due one-shot timer disarms itself and starts one more handler thread |
| `DoorBellProgram.Program.HandlerTurn` | linux_task/door_bell_system_sw_design/door_bell.c:743-825 | the next statement of any running expiry handler, in place |
| `DoorBellProgram.Program.PostingStatement` | linux_task/door_bell_system_sw_design/door_bell.c:743-764 | the bell and reset handlers: stop the timer, then post |
| `DoorBellProgram.Program.WaitStatement` | linux_task/door_bell_system_sw_design/door_bell.c:766-801 | the wait handler: load and store of the counter, stop, test against 3, post the verdict |
| `DoorBellProgram.Program.ProcessReboot` | linux_task/door_bell_system_sw_design/door_bell_func.c:234-264 | after process_reboot either every variable is back at its initial value or timers are deleted, workers cancelled and the monitor carries on |
| `DoorBellProgram.Program.OneTokenHere` | linux_task/door_bell_system_sw_design/door_bell.c:272-825 | an object changed only through its turns never holds more than one unit of work, and none exactly when stuck |
| `SemaphoreRing.StepIsTurn` | linux_task/thread_synchronization_using-semaphore/main.c:14-47 | from the state of any turn exactly one thread can move, and it takes the ring to the next turn |
| `SemaphoreRing.OnePermit` | linux_task/thread_synchronization_using-semaphore/main.c:14-54 | in every reachable state the semaphore values plus the threads between wait and post make one |
| `SemaphoreRing.RingEnds` | linux_task/thread_synchronization_using-semaphore/main.c:14-54 | for any number k of threads, n rounds and schedule: printing follows the cyclic order, the ring is stuck exactly when all threads have returned, which is after exactly 3kn steps with all turns printed, kn of them, and the semaphores back at (1, 0, ..., 0) |
| `SemaphoreRing.PrintsCyclically` | linux_task/thread_synchronization_using-semaphore/main.c:14-47 | thread 0 prints first, and after each print the next print is the next thread's, after the last thread's thread 0's |
| `SemaphoreRing.Program.Move` | linux_task/thread_synchronization_using-semaphore/main.c:14-47 | one step of a thread's loop over the semaphores in place |
| `SemaphoreRing.Program.InOrderSoFar` | linux_task/thread_synchronization_using-semaphore/main.c:14-54 | at any moment of an object changed only by its threads: the output is a beginning of the cyclic order, one permit is about, and it is stuck only when all have returned |
| `SemaphoreRing.Program.RunAll` | linux_task/thread_synchronization_using-semaphore/main.c:14-60 | threads chosen in any order among those able to move run to their end: kn prints in the cyclic order, all returned |
| `ConditionRing.OnlyTheTurnMoves` | linux_task/three_thread_synchronization/main.cpp:19-73 | with the start order or a rotation of it respected, before the final wake-ups only the thread with the turn moves, to the next turn |
| `ConditionRing.OneRunner` | linux_task/three_thread_synchronization/main.cpp:19-73 | until all numbers are printed no two different threads are able to move |
| `ConditionRing.FinaleKept` | linux_task/three_thread_synchronization/main.cpp:31-72 | once the leader has left its loop, whoever still waits is on the list of conditions it is working through, and every step keeps it so |
| `ConditionRing.FinaleMoves` | linux_task/three_thread_synchronization/main.cpp:31-72 | in the final phase, while some thread has not returned, some thread can move: no wake-up is lost |
| `ConditionRing.RingEnds` | linux_task/three_thread_synchronization/main.cpp:19-73 | under every schedule that respects the start order, or the same order from any other leader, for any k and n: the numbers 1, 2, 3, ... are printed by the threads cyclically from the leader on, runs are no longer than 6kn + k(k + 4) steps, and a run is stuck exactly when all threads have returned, with everything printed |
| `ConditionRing.PrintsCyclically` | linux_task/three_thread_synchronization/main.cpp:19-73 | the p-th number printed is p, the first by the leader and each further one by the next thread in the circle |
| `ConditionRing.SameOrderAsSemaphores` | linux_task/three_thread_synchronization/main.cpp:19-73 | finished runs of the condition-variable ring and of the semaphore ring print in the same thread order, shifted by the leader |
| `ConditionRing.StartOrderDecides` | linux_task/three_thread_synchronization/main.cpp:19-82 | over all schedules, in order or not: a run that has come to its end printed everything in the cyclic order from a leader if and only if every thread first locked after all earlier ones, counted from that leader; then all have returned |
| `ConditionRing.OutOfOrderMisprints` | linux_task/three_thread_synchronization/main.cpp:19-82 | once a thread has first locked too early it is alone with the mutex and about to print out of turn, and after that the output is wrong for good |
| `ConditionRing.Program.Move` | linux_task/three_thread_synchronization/main.cpp:19-73 | one step of a thread, in or out of order, over the mutex, wait sets and shared number in place |
| `ConditionRing.Program.RunAll` | linux_task/three_thread_synchronization/main.cpp:19-82 | started in order, from any leader, and then chosen freely among those able to move, the threads print 1 to kn cyclically and all return |
| `StartOrders.ReturnsExactlyWhen` | linux_task/three_thread_synchronization/main.cpp:19-82 | for the program's three threads and any number of rounds: all runs that start in a given order return if and only if that order is 0 1 2 or a rotation of it; from each of the other three a thread can be left waiting for ever |
| `StartOrders.Hangs` | linux_task/three_thread_synchronization/main.cpp:19-82 | such a run for every number of rounds and every leader: the thread out of order falls two iterations behind and begins its last wait after the others have sent their final signals |
| `Alternation.EitherMayStart` | linux_task/two_thread_synchronization/main.c:17-57 | either thread may get the mutex first, and the run is then the one in which that thread leads |
| `Alternation.OnlyTheTurnMoves` | linux_task/two_thread_synchronization/main.c:17-57 | after the first lock exactly the thread with the turn moves |
| `Alternation.AlternationTheorem` | linux_task/two_thread_synchronization/main.c:17-57 | for every n, either first thread and every schedule: prints strictly alternate from that thread with its own odd or even numbers, at most one thread is in the wait set, and the run is stuck exactly when both have returned, after 12n + 2 steps and n prints each |
| `Alternation.PrintsInTurn` | linux_task/two_thread_synchronization/main.c:17-57 | in every run every second number is the first thread's, counting up in twos from 1 or from 2, and those in between are the other's |
| `Alternation.CountsUp` | linux_task/two_thread_synchronization/main.c:17-57 | in every run in which the odd thread leads, the numbers printed are 1, 2, 3, ... by the two threads in turn |
| `Alternation.Program.Move` | linux_task/two_thread_synchronization/main.c:17-57 | one step of a thread over the mutex, the wait set and its own counter in place |
| `Alternation.Program.RunAll` | linux_task/two_thread_synchronization/main.c:17-57 | the two threads, chosen freely among those able to move, make n prints each in alternation and return |
| `TwoLevelLock.MutualExclusion` | linux_task/shared_mem_process_sema_thread_mutex/semaphore_linux.cpp:281-304 | where taking the semaphore does not fail: for any number of processes and iterations, with loads and stores interleaved freely, creations and unlocks failing and processes killed anywhere, at most one thread in the system is inside an update |
| `TwoLevelLock.BothLocksNeeded` | linux_task/shared_mem_process_sema_thread_mutex/semaphore_linux.cpp:281-304 | every run is exclusive if and only if the semaphore between processes and the mutex inside them are both taken and the call that takes the semaphore cannot fail: sem_lock carries on after a failure |
| `TwoLevelLock.LocksWorkedIsBoth` | linux_task/shared_mem_process_sema_thread_mutex/semaphore_linux.cpp:422-431 | a run of the code in which no call to take the semaphore failed is a run of the guarded program, so every theorem about that holds of it |
| `TwoLevelValues.SharedValues` | linux_task/shared_mem_process_sema_thread_mutex/semaphore_linux.cpp:265-356 | where taking the semaphore works, deaths included: whenever the semaphore is free, so also at the end, the values are 10, 12, 14 plus what the dead left half done; whenever nobody is inside an update they differ from that by one common amount of at most n |
| `TwoLevelValues.RestoredExactlyWhen` | linux_task/shared_mem_process_sema_thread_mutex/semaphore_linux.cpp:288-306 | with semaphore calls that can fail or cannot, and failed creations and kills only at given places of the child's main thread: the values are 10, 12, 14 at the end of all runs, and behind a free semaphore in all runs, if and only if taking the semaphore cannot fail and these places exclude the second creation and the two joins, or there are no iterations |
| `TwoLevelValues.TornByFailedCreate` | linux_task/shared_mem_process_sema_thread_mutex/semaphore_linux.cpp:295-299 | the code's own failure path: the second pthread_create fails between two stores of the first thread and 11, 12, 14 stay behind a free semaphore |
| `TwoLevelValues.LostUpdates` | linux_task/shared_mem_process_sema_thread_mutex/semaphore_linux.cpp:422-431 | when both children's calls to take the semaphore fail, 10 - n, 12, 14 can be left at the end though nobody dies |
| `TwoLevelRuns.UndoConserved` | linux_task/shared_mem_process_sema_thread_mutex/semaphore_linux.cpp:422-443 | in every run of the code, whatever calls fail: the semaphore is never negative, and it and the pending undo adjustments add up to one, plus one for each exit at which the kernel kept the value from becoming negative |
| `TwoLevelRuns.NeverClampedWhenLocksWork` | linux_task/shared_mem_process_sema_thread_mutex/semaphore_linux.cpp:422-443 | as long as taking the semaphore has worked, semaphore plus pending adjustments is exactly one, wherever children exit or die |
| `TwoLevelRuns.ConservedExactlyWhen` | linux_task/shared_mem_process_sema_thread_mutex/semaphore_linux.cpp:274-344 | with calls to take the semaphore that may fail, they are exactly one in every run if and only if there are at most two children, as the program has |
| `TwoLevelRuns.OnlyStuckWhenDone` | linux_task/shared_mem_process_sema_thread_mutex/semaphore_linux.cpp:274-344 | in every run of the code, whatever calls fail and wherever children exit or die, the lock stays obtainable: nobody can move without a failure if and only if every process is gone |
| `TwoLevelRuns.RunsEnd` | linux_task/shared_mem_process_sema_thread_mutex/semaphore_linux.cpp:494-529 | every run of the code, whatever calls fail, takes at most 16n + 7 steps per process |
| `TwoLevelProgram.Program.MainTurn` | linux_task/shared_mem_process_sema_thread_mutex/semaphore_linux.cpp:281-306 | the next step of a child's main thread over semaphore and process table in place, failing calls included |
| `TwoLevelProgram.Program.WorkerTurn` | linux_task/shared_mem_process_sema_thread_mutex/semaphore_linux.cpp:494-529 | the next step of an incrementing or decrementing thread over shared memory in place |
| `TwoLevelProgram.Program.GuardedSoFar` | linux_task/shared_mem_process_sema_thread_mutex/semaphore_linux.cpp:281-344 | as long as taking the semaphore has worked, an object changed only by its threads is exclusive |
| `TwoLevelProgram.Program.OrderlySoFar` | linux_task/shared_mem_process_sema_thread_mutex/semaphore_linux.cpp:274-344 | whatever calls have failed, such an object is within its step bound, stuck only when all processes are gone, and keeps the conservation law |
| `TwoLevelProgram.Program.RunAll` | linux_task/shared_mem_process_sema_thread_mutex/semaphore_linux.cpp:274-356 | threads chosen in any order, with calls failing anywhere, run until every process is gone and the semaphore free; if taking it never failed, the values are the initial ones plus what failed creations left |
| `SeekableDriver.StepKeeps` | driver/online_char_driver/online_char_driver.c:29-109 | every call keeps the offsets within the buffer and semaphore plus open files at one |
| `SeekableDriver.RefinesArray` | driver/online_char_driver/online_char_driver.c:29-109 | over every history of calls with arbitrary partial copies the driver returns what a plain byte array with at most one cursor returns and holds the same bytes |
| `SeekableDriver.SeekLaw` | driver/online_char_driver/online_char_driver.c:81-102 | lseek relative to the start, the current offset or, backwards, the end goes to the place in the buffer nearest to the target, the target itself if it is inside; for any other origin to 0; it answers that offset and changes nothing else |
| `SeekableDriver.SeekTells` | driver/online_char_driver/online_char_driver.c:81-102 | seeking by 0 from the current offset answers it and changes nothing |
| `SeekableDriver.SeeksAddUp` | driver/online_char_driver/online_char_driver.c:81-102 | two relative seeks do what one by their sum does if and only if the first target is inside, or the second seek does not turn back from the end that stopped the first, or the sum reaches the other end |
| `SeekableDriver.TailIsRead` | driver/online_char_driver/online_char_driver.c:41-102 | seeking n back from the end and reading n returns the last n bytes |
| `SeekableDriver.ExclusiveOpen` | driver/online_char_driver/online_char_driver.c:29-39 | at most one session is open, and an open succeeds exactly when none is |
| `SeekableDriver.WriteSplits` | driver/online_char_driver/online_char_driver.c:63-79 | however data is split into fully copied writes, the effect is one overlay cut off at the end of the buffer |
| `SeekableDriver.ReadCallsSplit` | driver/online_char_driver/online_char_driver.c:41-61 | however a read is split into fully copied calls, the bytes returned are the same |
| `SeekableDriver.WriteSeekRead` | driver/online_char_driver/online_char_driver.c:41-102 | data written in any split, then read back from the same offset in any split of the same total, comes back unchanged up to the end of the buffer |
| `SeekableDriver.Driver.DeviceOpen` | driver/online_char_driver/online_char_driver.c:29-39 | takes the semaphore or is interrupted or waits |
| `SeekableDriver.Driver.DeviceRead` | driver/online_char_driver/online_char_driver.c:41-61 | returns the bytes from the offset and moves it past them |
| `SeekableDriver.Driver.DeviceWrite` | driver/online_char_driver/online_char_driver.c:63-79 | stores into the buffer in place and moves the offset |
| `SeekableDriver.Driver.DeviceLseek` | driver/online_char_driver/online_char_driver.c:81-102 | the new offset, clamped to the buffer |
| `SeekableDriver.Driver.DeviceClose` | driver/online_char_driver/online_char_driver.c:104-109 | gives the semaphore back |
| `CircularList.List.AddTail` | driver/seq_file_interface/seq_file_interface_char_driver.c:335-339 | the node is appended and the circle stays well formed in both directions |
| `CircularList.List.Traverse` | driver/seq_file_interface/seq_file_interface_char_driver.c:424-425 | an empty-bodied entry loop terminates with its pointer back at the link it started from |
| `CircularList.List.FirstNode` | driver/seq_file_interface/seq_file_interface_char_driver.c:422-427 | the two traversals leave q at the first node; on an empty list at the head, which is not a node |
| `CircularList.List.SeqStart` | driver/seq_file_interface/seq_file_interface_char_driver.c:529-547 | the first node for position 0 and null otherwise; on an empty list the head itself |
| `CircularList.List.SeqNext` | driver/seq_file_interface/seq_file_interface_char_driver.c:552-577 | the following node, or null after the last |
| `CircularList.List.Iterate` | driver/seq_file_interface/seq_file_interface_char_driver.c:529-616 | start, show, next, show, ... visits every node exactly once in list order, prints its texts, and ends |
| `CircularList.List.HopsAreNodes` | driver/seq_file_interface/seq_file_interface_char_driver.c:424-576 | following next pointers from the head runs through the nodes in order and back to the head |
| `ClearingLaws.OnlyLastWrite` | driver/seq_file_interface/seq_file_interface_char_driver.c:386-419 | over every history by any number of openers, writes in progress included: with `i` the last write to store, the bytes from its offset before it to its offset after it are the first of its data and all others are 0; it moved by the least of its length, what was copied and what fitted, and moved no other file's offset |
| `ClearingLaws.NothingWritten` | driver/seq_file_interface/seq_file_interface_char_driver.c:72 | before any write the buffer is all zero, so only writing changes it |
| `ClearingLaws.WriteAnswers` | driver/seq_file_interface/seq_file_interface_char_driver.c:386-428 | a write that comes to its end, whatever others did meanwhile, returns how far it moved its offset, which is the number of its bytes then in the buffer; exactly the numbers above 0 and below the buffer's size go into the node |
| `ClearingLaws.ReadAnswers` | driver/seq_file_interface/seq_file_interface_char_driver.c:347-364 | a read, cut short or not, returns the bytes its offset moves over, as many as were asked for, copied and left, and changes nothing else |
| `ClearingLaws.ReadSeesLastWrite` | driver/seq_file_interface/seq_file_interface_char_driver.c:347-419 | what any opener's read returns is, byte for byte, the data of the last write to store before it where the two overlap, and 0 elsewhere |
| `ClearingLaws.OffsetIsTraffic` | driver/seq_file_interface/seq_file_interface_char_driver.c:347-419 | every open file's offset is the number of bytes its reads have returned and its writes have answered since it was opened, and those of its write under way |
| `ClearingLaws.RefusedExactlyWhen` | driver/seq_file_interface/seq_file_interface_char_driver.c:347-428 | calls at the end of the buffer or with nothing to copy are answered like any other; only those on a file that is not open, or is busy with a write, are not |
| `ClearingDriver.WriteAtEnd` | driver/seq_file_interface/seq_file_interface_char_driver.c:386-428 | a write at the end of the buffer returns 0, moves nothing and leaves the buffer all zero |
| `ClearingDriver.NodeIsTruthful` | driver/seq_file_interface/seq_file_interface_char_driver.c:419-427 | over every history, with writes overlapping after the semaphore is given back: the node shows the size of the last write if and only if the write that printed last stored as many bytes as the last to store, or nothing was printed and the last write stored nothing |
| `ClearingDriver.LastPrinterDecides` | driver/seq_file_interface/seq_file_interface_char_driver.c:419-427 | when no two writes are of one size, it does if and only if the last to print was the last to store, or nothing was printed and the last write stored nothing |
| `ClearingDriver.SerialWritesAreShown` | driver/seq_file_interface/seq_file_interface_char_driver.c:419-427 | when writes do not overlap and none is under way, it does if and only if the last write stored at least one byte and less than a full buffer, or stored none and no write stored such a size |
| `ClearingDriver.ReliableExactlyWhen` | driver/seq_file_interface/seq_file_interface_char_driver.c:419-427 | users who write only sizes of a given set, at most m at a time, find the right number whenever no write is under way if and only if they write nothing at all, or only writes of 0 bytes, or only sizes of 1 to size - 1 with one writer at a time or one size |
| `ClearingDriver.FullWriteIsNotShown` | driver/seq_file_interface/seq_file_interface_char_driver.c:422-427 | a concrete failure: a first write that fills the buffer is shown as 0 |
| `ClearingDriver.OverlapShowsTheEarlier` | driver/seq_file_interface/seq_file_interface_char_driver.c:419-427 | a concrete failure: of two overlapping writes the first to store prints last, and its size stays in the node |
| `ClearingDriver.DrainReadsSuffix` | driver/seq_file_interface/seq_file_interface_char_driver.c:347-364 | positive, fully copied reads repeated until one returns nothing deliver exactly the rest of the buffer |
| `ClearingDriver.DrainEnds` | driver/seq_file_interface/seq_file_interface_char_driver.c:347-364 | one of them does return nothing as soon as there are more reads than bytes left |
| `ClearingDriver.Driver.TextIsTruthful` | driver/seq_file_interface/seq_file_interface_char_driver.c:419-427 | for an object after any calls: the number that can be read in the first node's text is the size of the last write under exactly the condition of `NodeIsTruthful` |
| `NodeText.DecimalReadsBack` | driver/seq_file_interface/seq_file_interface_char_driver.c:426 | what %d prints is a numeral, digits without a leading zero, whose value, most significant digit first, is the number |
| `NodeText.OnlyNumeral` | driver/seq_file_interface/seq_file_interface_char_driver.c:426 | and the only one: printing the value of a numeral gives that numeral back |
| `NodeText.CountTextTells` | driver/seq_file_interface/seq_file_interface_char_driver.c:426 | the printed line can be read back: it has the form of a byte count and holds exactly the number printed |
| `NodeText.CountTextFits` | driver/seq_file_interface/seq_file_interface_char_driver.c:426 | the sprintf into the 20-byte text takes at most 17 bytes |
| `ClearingDriver.Driver.ScullRead` | driver/seq_file_interface/seq_file_interface_char_driver.c:347-364 | returns the bytes from the opener's offset and moves it past them |
| `ClearingDriver.Driver.FinishWrite` | driver/seq_file_interface/seq_file_interface_char_driver.c:422-428 | later updates only the first node's text, only for recorded sizes, and returns the count |
| `ClearingDriver.Driver.StartWrite` | driver/seq_file_interface/seq_file_interface_char_driver.c:386-419 | clears the buffer, stores in place and moves the offset, up to giving the semaphore back |

## Left out

- Sensor files, `check_thread_dead`, `shutdown`, printing and `ipcrm`: input and process plumbing; sensor readings are arbitrary inputs.
- Failing pipe, queue and timer calls in the door bell: assumed to succeed.
- Start-up of the door bell before all threads and timers exist, and its sleeps between polls: the model begins after start-up and lets any time pass at any step.
- The 32-bit width of the retry counter and of the loop counters: modelled as unbounded; the retry counter would need more than two thousand years to overflow.
- The `usleep` calls of the ring programs: replaced by the start order they are meant to give, a hypothesis that `StartOrderDecides` and `ReturnsExactlyWhen` show to be needed.
- Start orders of more than three threads other than rotations: that they print wrongly is proved (`StartOrderDecides`), whether they can hang is not.
- Spurious wake-ups: the ring programs re-check no predicate, so nothing is promised under them.
- What exactly the shared counters hold after a failed call to take the semaphore: `LostUpdates` shows that updates can be lost, `RestoredExactlyWhen` when none are.
- Failing `fork`, `shmget`, `semget` and `pthread_join`: assumed to succeed.
- The text of the clearing driver's node while two `sprintf` calls write it at once: printing the text is one step.
- Calls running at the same time on one open file of a driver, and positional reads and writes: a file's next call comes after its last has returned.
- 64-bit overflow of file offsets in `lseek`: offsets are unbounded before clamping.
- The kernel's own seq_file read loop: `Iterate` is the start, show, next protocol alone. `mydrv_seq_next` never advances the position, which that loop relies on.
- Module loading and removal, proc entries, device numbers, `shm` and semaphore creation and removal: outside the modelled state.
- Sockets, fifos, signals, dynamic loading, timers and single-mutex counter demos: thin wrappers over system calls, or weaker instances of the two-level lock.
- Duplicate copies (`back_up`, `ipc_mechanisms/cpp_linux_code`, the older drivers): the same logic as the files modelled.
