# Verified model of sylar's fiber runtime, logging patterns, codecs and CRC

sylar runs *fibers* on a pool of worker threads. Workers take fibers and callbacks from one shared queue; fibers park
in event slots (epoll) or timers and are put back into the queue when an event arrives, a timer fires or a descriptor
is closed. This project models that runtime and the self-contained algorithms around it, and proves what they are for.
Nothing here runs the original program; the only judge of the proofs is the Dafny verifier (`dafny verify
dfyconfig.toml`).

## The parts

**The runtime as a step machine** (`Tasks`, `Runtime`, and the proofs in `Pending`, `Tickets`, `TicketSteps`, `Calls`,
`Safety`, `Guarantees`, `Wakeups`, `Progress`, `Quiescence`, `Timeouts`, `Sleeps`, `Lambdas`, `LostTimeouts`,
`Retries`, `Pinning`, `Stalls`). A state holds any number of workers, the queue, the fibers, the event slots, the
timers, the live blocking calls and the clock. A step is one critical section of the code:

| step | code |
|---|---|
| `Scan`, `Dispatch`, `PostRun` | the queue scan, the dispatch and the bookkeeping after a fiber switched out, sylar/scheduler.cpp:156-225 |
| `IdleStop`, `IdleExpire`, `IdleReady`, `IdleYield` | one pass of the idle fiber, sylar/iomanager.cpp:371-472 |
| `WaitEvent`, `Sleep`, `SwitchTo`, `YieldReady`, `YieldHold`, `Finish` | how a fiber parks or ends: sylar/iomanager.cpp:169-221, sylar/hook.cpp:203-207, sylar/fiber.cpp:193-232 |
| `RunResume`, `RunTimeout` | the closures of the sleep hooks and of do_io, sylar/hook.cpp:145-154 and 205-206 |
| `IoBegin`, `IoTimer`, `IoAdd`, `IoWake`, `IoDone` | the retry loop of do_io, sylar/hook.cpp:127-184; connect_with_timeout (hook.cpp:290-330) takes a subset of these steps |
| `Spawn`, `Submit`, `Call`, `OnEvent`, `DelEvent`, `CancelEvent`, `CancelAll`, `StartTimer`, `StopTimer`, `RequestStop` | anything program code may do, inside a fiber or on a thread of its own |

Program code is unconstrained, with the conditions the library puts on its users: a fiber that is parked, queued or
running is not scheduled a second time (`Submit`), a slot that is taken is not registered again (the assertion of
addEvent), timers that belong to the hooks are not cancelled from outside, and a fiber that has just handed out its
own wake-up switches out next. The kernel's answers, the events it delivers and the passing of time are inputs of the
steps.

**The same code as objects** (`IoEvents`, `Scheduling`, `Timers`, `Expiry`). `FdContext`/`IoManager`,
`Scheduler`/`Fiber`/`Worker` and `Timer`/`TimerManager` are classes whose methods follow the statements of the C++
methods and are proved against the pure functions that the step machine uses or against the property itself;
`IoEvents.MachineAgreesBoth`, `Scheduling.TurnAgrees` and `Expiry.IdleExpire` tie events, turns and timers to the
machine. The kernel's interest list is a ghost map, and `EpollCtl` has the kernel's legality rule as its precondition,
so every choice of ADD, MOD and DEL is proved legal.

**Log patterns and log configuration** (`LogPattern` in LogFormatter.dfy, `LogConfig`). The pattern compiler is proved
equal to a recursive definition, an inverse of rendering, and lossless. The configuration listener is proved to leave
every logger as if it had been built from scratch.

**CRC** (`Bits`, `Division`, `Crc`, `TableCrc`, `CrcAgreement`, `AugmentedCrc`). Registers are bit sequences, lowest
bit first, of any order and any register width. Linearity over GF(2) shows that a table look-up does the work of eight
division steps.

**Codecs and addresses** (`UrlCodec`, `Ipv6Text`, `Ipv6Mask`).

## Where the code differs from what one would expect

* crc_optimal with reflected input and an initial remainder that has bits above the order is not the CRC that
  crc_basic computes: the shift to the right brings those bits down. `CrcAgreement.TableAgrees` gives the exact
  condition.
* Timer::refresh announces nothing, so a refreshed timer may become the new front unnoticed. `Timers.Timer.Refresh`
  gives the exact condition, with an input in `Timers.RefreshLosesFront`, and shows that it cannot happen on a clock
  that does not go back unless `reset` was used without `from_now`.
* delEvent forgets the fiber that waits in the slot: `Wakeups.NoLostWakeup` shows that nothing else ever does.
* detectClockRollover subtracts an hour in unsigned arithmetic, so while the last reading is below one hour every step
  back of the clock counts as a rollover and expires all timers: `Timers.RolloverIntended`.
* `%%` in a log pattern is commented as an escape, but the second sign is read again as the start of an item.
* An event result that names an unregistered event beside a registered one makes idle run into the assertion of
  triggerEvent, since idle does not mask the delivered bits. `IoEvents.IoManager.HandleReady` says exactly when, and
  `IoEvents.UnmaskedResultAborts` is such an input.
* The clamp of the epoll timeout compares after a conversion to int: `Timers.WaitIsBounded`.
* UrlEncode leaves '=' alone, which section 2.3 of RFC 3986 does not list as unreserved:
  `UrlCodec.EqualsIsTheException`.
* The timeout of do_io can be lost for good: if its timer fires between addConditionTimer and addEvent, or if epoll_ctl
  refuses the cancelEvent of the lambda, the call waits for the event alone. `LostTimeouts.LossExactly` gives the exact
  condition, `LostTimeouts.LossHappens` an input, and `LostTimeouts.LostForGood` says how long it lasts.
* A deadline is computed in 64 bits and may wrap: `Timeouts.DeadlineExact`.

## Model

| member | source | states |
|---|---|---|
| Tasks.FirstEligibleMeans | sylar/scheduler.cpp:161-183 | the entry a scan takes is unpinned or pinned to this very worker and no fiber in EXEC, and every entry before it is pinned to another worker or a fiber in EXEC |
| Safety.NextKeeps | sylar/scheduler.cpp:154-247 | the whole invariant (unique wake-ups, worker and fiber states, call records, timers, active count) survives every step of every worker, fiber, hook and outside thread |
| Safety.RunKeeps | sylar/scheduler.cpp:140-248 | so it holds after every run of any length with any number of workers |
| Guarantees.PendingSomewhere | sylar/scheduler.cpp:161-202 | a wake-up is counted exactly when a queue entry, event slot, timer, worker's hand or running closure holds it: the counting misses no place |
| Guarantees.AtMostOneTicket | sylar/scheduler.cpp:161-202 | in every reachable state all pending wake-ups of a fiber are one and the same place |
| Guarantees.NeverOnTwoWorkers | sylar/scheduler.cpp:172-193 | no fiber is ever swapped in, or still switching out, on two workers |
| Guarantees.TakenFiberIsParked | sylar/scheduler.cpp:172-191 | a fiber that a worker took from the queue is on no worker and not in EXEC: the EXEC check suffices |
| Guarantees.AssertionsNeverFail | sylar/fiber.cpp:124-206 | in a reachable state no enabled step fails the state assertions of reset, swapIn of task and callback fibers, both yields and the EXEC assertion of addEvent; addEvent's assertion on a free slot is a guard of the registering steps, and those of ~Fiber and of the idle fiber's swapIn are absent |
| Guarantees.CbFiberAtLoopHead | sylar/scheduler.cpp:204-225 | at the head of the worker loop the callback fiber is null or INIT |
| Guarantees.FiberLifecycle | sylar/fiber.cpp:124-235 | every step moves the state of every task or callback fiber only along INIT/HOLD/READY to EXEC, EXEC to HOLD/READY/TERM/EXCEPT, TERM/EXCEPT to INIT, or not at all; the idle fiber has no state in the machine |
| Guarantees.QueueDiscipline | sylar/scheduler.cpp:156-185 | a scan removes exactly the earliest entry that is not pinned to another worker and no fiber in EXEC, and keeps the order of the rest; without one it idles, or leaves once its idle fiber has ended; every other step only appends |
| Pinning.HeldAtHome | sylar/scheduler.cpp:161-185 | in every reachable state a task in a worker's hand is pinned to that worker or to none |
| Pinning.BoundRunsHome | sylar/scheduler.cpp:270-282 | over any run from a reachable state, a fiber that was scheduled for a thread is next run by that worker and by no other |
| Pinning.Binds | sylar/scheduler.cpp:270-282 | switchTo to another thread, and scheduling with a thread, bind the fiber in that sense |
| Pinning.PinnedAsAsked | sylar/scheduler.h:134-145 | every task that any step appends carries exactly the thread that was asked for: events, timers, sleepers and yielding fibers are never pinned |
| Guarantees.TasksConserved | sylar/scheduler.h:65-145 | over any run, the tasks that entered the queue are, with multiplicity, those that workers took and those still queued |
| Guarantees.ActiveCount | sylar/scheduler.cpp:180-231 | activeThreadCount_ equals the number of workers that hold or run a task |
| Wakeups.NoLostWakeup | sylar/iomanager.cpp:96-112 | in every reachable state, for every enabled step: a pending wake-up is still pending afterwards, or a worker acts on it, if and only if the step is not a successful delEvent of the slot in which that very fiber waits |
| Wakeups.WakeupOverRun | sylar/scheduler.cpp:154-203 | over any run from a reachable state, a fiber that has not ended and whose wake-up is pending is still waiting at the end, or a step of the run swapped it in, or a delEvent of its own slot forgot it |
| Wakeups.DelEventForgets | sylar/iomanager.cpp:223-258 | after a successful delEvent the fiber that waited there has no wake-up anywhere |
| Wakeups.ForgettingHappens | sylar/iomanager.cpp:223-258 | the input: a fiber is spawned, taken and run, registers for an event, and another thread deletes that event |
| Progress.ReadyIsInLine | sylar/scheduler.cpp:189-216 | a fiber that yielded READY is on a worker, in the queue, or in the hand of the worker that took it: yielding never loses a fiber |
| Progress.ParkingHasWakeup | sylar/iomanager.cpp:207-218 | a fiber that registers for an event, sleeps or switches threads has handed out its wake-up, at that very place, before it is bound to switch out |
| Progress.EventsWake | sylar/iomanager.cpp:410-465 | whatever waits for an event that is delivered or cancelled goes into the queue, and its slot is free |
| Progress.TimersFire | sylar/iomanager.cpp:397-404 | every due timer's callback goes into the queue; exactly the recurring ones stay, with their next deadline; the others are untouched |
| Progress.CallbacksRunOnce | sylar/scheduler.cpp:204-225 | over any run and for any callback task, occurrence by occurrence: what was queued or in a hand, plus what entered, is at the end queued, in a hand, or was started as the body of a callback fiber; none is dropped and none starts twice |
| Stalls.NeverStuck | sylar/scheduler.cpp:140-248 | in every reachable state a worker that has not left can take a step, itself or the fiber it runs, if and only if that fiber is not about to fail addEvent's assertion on a taken slot |
| Stalls.ExecIsOnWorker | sylar/scheduler.cpp:172-203 | in every reachable state a fiber in EXEC is on a worker: the EXEC check never holds back a fiber that is off its worker |
| Stalls.StoppedForGood | sylar/timer.cpp:51-62 | over any run, a timer that the program stopped is never set again |
| Sleeps.SleepNotEarly | sylar/timer.cpp:158-200 | over any run, the timer of a sleeping fiber is untouched until the clock has reached its deadline |
| Sleeps.SleepLasts | sylar/hook.cpp:196-240 | a fiber that sleeps has its one wake-up in the timer it set until the deadline: no sleep ends early |
| Sleeps.TimeoutWakes | sylar/hook.cpp:145-154 | what the lambda does to any fiber, in every reachable state: it wakes the fiber if and only if its call is alive and unmarked, epoll_ctl accepts, and the slot already holds the fiber; then the queue entry is the fiber's only wake-up, and otherwise all its wake-ups are as before |
| Sleeps.StampedTimesOut | sylar/hook.cpp:165-182 | over any run from a reachable state, a parked call whose timer lambda has run stays parked as it is until it is woken, and then it has returned ETIMEDOUT: it neither retries nor completes |
| Lambdas.TimeoutIsPending | sylar/hook.cpp:143-179 | in every reachable state, a call with a timeout that has set its timer is marked as timed out, or its lambda is in its own timer, the queue, a worker's hand or about to run: no timeout is dropped on the way |
| LostTimeouts.LossExactly | sylar/hook.cpp:143-171 | a call comes to wait in its slot with its timeout already noticed if and only if the step is its own addEvent after the lambda ran between addConditionTimer and addEvent, or the lambda of the waiting call with cancelEvent refused by epoll_ctl |
| LostTimeouts.LostForGood | sylar/hook.cpp:143-182 | over any run from a reachable state, such a call is still waiting if and only if no step of the run emptied its slot by an event, a delete or a cancel: the clock and its own timers never end the wait |
| LostTimeouts.LossHappens | sylar/hook.cpp:143-157 | the input: with two workers, a timer of 5 ms expires and its lambda runs on the second before the first reaches addEvent; the fiber then waits, and no lambda of its call is left anywhere |
| Quiescence.StoppingIsStable | sylar/iomanager.cpp:349-353 | once stopping holds, no step inside the runtime makes it false |
| Quiescence.StoppingExactly | sylar/iomanager.cpp:349-361 | in every reachable state stopping holds if and only if a stop was asked for and nothing is queued, waiting for time or events, or held by a worker |
| Quiescence.NothingLeftBehind | sylar/scheduler.cpp:226-259 | when a worker has left its loop, the queue, the timers, the slots and all hands are empty, if outside threads stopped submitting once a worker was told to stop |
| Timeouts.TimeoutNotEarly | sylar/hook.cpp:127-184 | do_io never reports ETIMEDOUT before the timeout has passed since the call began (while the 64-bit sum does not wrap) |
| Timeouts.DeadlineExact | sylar/timer.cpp:40-44 | the computed deadline is the sum modulo 2^64; it lies in the future exactly when clock plus delay fits 64 bits, and at clock 1 the delay 2^64 - 1 gives deadline 0 |
| Timeouts.OnlyOwnTimerCancels | sylar/hook.cpp:145-154 | only a run of the call's own timer lambda marks it as timed out, with the time of that run |
| Timeouts.TimeoutHasCause | sylar/hook.cpp:143-179 | in every run, a reported timeout goes back to a step that ran the call's own timer lambda at the time it is stamped with |
| Timeouts.ReturnLeavesNothing | sylar/hook.cpp:157-184 | on every return the fiber has no pending wake-up anywhere, the call's record is gone and no timer still set belongs to it |
| Retries.ResultTells | sylar/hook.cpp:131-184 | in every reachable state each returned call tells how far it had come: it completed exactly if it was trying, failed exactly if it was registering, and timed out exactly if it had been parked |
| Retries.WokenRetries | sylar/hook.cpp:169-180 | a woken call that is not marked goes back to its attempt with its old timer gone and nothing returned; a marked one returns ETIMEDOUT and its record is gone; nothing else changes |
| Retries.CallsWereBegun | sylar/hook.cpp:127-131 | in every run, each call, live or finished, goes back to a step that began it at the time, on the slot and with the timeout that its record shows |
| Retries.TimerIsInWindow | sylar/hook.cpp:143-154 | in every reachable state the timer of a live call is due exactly its full timeout after a moment between the beginning of the call and now |
| Timeouts.LeftoverIsInert | sylar/timer.cpp:127-140 | a timer lambda that runs after its call returned changes nothing but its own closure: the weak pointer is dead |
| IoEvents.MachineAgreesBoth | sylar/iomanager.cpp:319-328 | the step machine and the object model move slots and queue in the same way |
| IoEvents.FdContext.Load | sylar/iomanager.cpp:207-218 | sets the bit and fills the slot, which is proved empty, with the callback or else the running fiber; the other slot stays |
| IoEvents.FdContext.Trigger | sylar/iomanager.cpp:96-112 | clears the bit and moves the slot's content out, leaving the slot empty as the next addEvent needs it |
| IoEvents.IoManager.Lookup | sylar/iomanager.cpp:172-184 | growing to one and a half times the descriptor always reaches it, keeps the old contexts and adds empty ones |
| IoEvents.IoManager.AddEvent | sylar/iomanager.cpp:169-221 | adds exactly this slot; fails the assertion exactly when it is taken; a refused epoll_ctl changes nothing; keeps count, masks, slots and kernel interest in step |
| IoEvents.IoManager.DelEvent | sylar/iomanager.cpp:223-258 | succeeds exactly when the event is registered and epoll_ctl does; then exactly this slot is gone and nothing is scheduled |
| IoEvents.IoManager.CancelEvent | sylar/iomanager.cpp:260-289 | the same, but the slot's content is appended to the queue, unpinned |
| IoEvents.IoManager.CancelAll | sylar/iomanager.cpp:291-332 | succeeds exactly when something is registered on the descriptor and epoll_ctl does; then all its slots are empty, the others as before, and the queue has gained their contents, reader first |
| IoEvents.IoManager.HandleReady | sylar/iomanager.cpp:420-464 | for one epoll result that does not abort: a slot of the descriptor goes if and only if epoll_ctl accepts and its event is named or the result is an error or hang-up; the queue gains the contents, reader first; and exactly when the result is skipped or runs into the assertion |
| IoEvents.UnmaskedResultAborts | sylar/iomanager.cpp:422-464 | the input: a descriptor registered for reading whose result names the write event as well, and epoll_ctl accepts |
| IoEvents.IoManager.HandleAll | sylar/iomanager.cpp:410-465 | any batch, unmasked bits included: the loop ends in an assertion exactly when Aborts says so; otherwise it leaves what delivering the results one by one leaves, and for distinct descriptors exactly the named slots, and all of those with an error, are empty |
| IoEvents.AbortsExactly | sylar/iomanager.cpp:420-464 | for distinct descriptors the batch aborts if and only if one of its results does so on the state before the batch: results do not disturb each other |
| IoEvents.IoManager.AskedNeverAborts | sylar/iomanager.cpp:420-464 | results that name only what the kernel was asked for when the batch arrived never run into the assertion |
| IoEvents.DeliverAllMeans | sylar/iomanager.cpp:410-465 | a batch of distinct descriptors empties exactly the slots that an accepted result names or stands for by an error; each result in turn appends the contents of its own slots, reader first |
| Scheduling.NoSilentWork | sylar/scheduler.cpp:161-187 | if anything that some worker could run stays behind after a scan, the scan tickles |
| Scheduling.Scheduler.Take | sylar/scheduler.cpp:156-185 | what is taken is unpinned or pinned to this worker and no fiber in EXEC; everything before it is pinned elsewhere or in EXEC; nothing is taken exactly when all entries are so; the worker counts as active, and tickle_me is set exactly for an entry pinned elsewhere before, or any entry after |
| Scheduling.Scheduler.ScheduleNoLock | sylar/scheduler.h:134-145 | an empty task is dropped, another appended; a tickle is asked for exactly when the queue was empty |
| Scheduling.Scheduler.ScheduleBatch | sylar/scheduler.h:81-95 | appends the callbacks that are there in order, leaves all the caller's places empty, and asks for a tickle exactly when the queue was empty and the batch is not |
| Scheduling.TasksMean | sylar/scheduler.h:81-95 | exactly the places that hold a callback become tasks, in order and unpinned |
| Scheduling.Worker.RunFiber | sylar/scheduler.cpp:189-203 | the bookkeeping settles the fiber as the step machine does, requeues it exactly when it yielded READY, and skips ended fibers |
| Scheduling.Worker.RunCallback | sylar/scheduler.cpp:204-225 | the callback fiber is reused exactly when the callback ended, and is null or INIT at the next loop head |
| Scheduling.TurnAgrees | sylar/scheduler.cpp:189-225 | in every reachable state, a fiber's last step of a turn and the bookkeeping after it are, in the machine, what the objects do: same state found, same requeueing, callback fiber kept exactly when the callback ended |
| Timers.FindFinds | sylar/timer.cpp:57-58 | in a strictly ordered set, searching a member's own key finds that member |
| Timers.InsertOrdered | sylar/timer.cpp:15-38 | inserting at the lower bound keeps the set strictly ordered by deadline and address |
| Timers.ExpiredAreDue | sylar/timer.cpp:177-183 | lower_bound followed by the skip over ties cuts off exactly the deadlines up to now, whatever the probe's address |
| Timers.ResetDeadline | sylar/timer.cpp:99-103 | reset without from_now keeps the old deadline, in wrapping arithmetic too |
| Timers.Timer.Cancel | sylar/timer.cpp:51-62 | succeeds exactly while the callback is there, and takes exactly this timer out; afterwards it is never handed out again |
| Timers.Timer.Refresh | sylar/timer.cpp:64-79 | restarts the period; the front stays announced exactly when it had been announced or the new deadline is not before the one last reported, and always on schedule |
| Timers.RefreshLosesFront | sylar/timer.cpp:64-79 | the input: timers of 500 and 1000 ms, the second reset to 10 ms without from_now, the front asked for, and then refreshed: it is the new front and nobody is told |
| Timers.Timer.Reset | sylar/timer.cpp:81-107 | new period, new deadline only with from_now, front announced |
| Timers.TimerManager.Find | sylar/timer.cpp:57-58 | the find of cancel, refresh and reset always succeeds on a timer with a callback |
| Timers.TimerManager.Add | sylar/timer.cpp:202-216 | a timer that becomes the front is announced once per getNextTimer; no front insertion is lost |
| Timers.TimerManager.AddTimer | sylar/timer.cpp:119-125 | a new timer of the given address and period joins the set with its deadline; everything else stays |
| Timers.TimerManager.GetNextTimer | sylar/timer.cpp:142-156 | the delay to the earliest deadline, zero when it has passed, all ones when there is none; announcements start afresh |
| Timers.TimerManager.DetectClockRollover | sylar/timer.cpp:218-227 | true exactly when the clock went back and either the last reading was within the first hour or the clock is more than an hour behind it |
| Timers.RolloverIntended | sylar/timer.cpp:218-227 | it tells a step back by more than an hour exactly when the last reading is at least an hour or the clock has not gone back at all; otherwise the unsigned difference wraps, and going from 1000 back to 999 counts as a rollover |
| Timers.TimerManager.ListExpired | sylar/timer.cpp:158-200 | hands out exactly the due callbacks (all after a rollover) in deadline order; what remains is the later timers and the recurring ones re-armed at now plus period; one-shot timers fire at most once and never after a cancel |
| Expiry.IdleExpire | sylar/iomanager.cpp:397-404 | listExpiredCb on the timer set and the scheduling of its result are the machine's expiry step: what it hands out is an expiry order of the machine's timers, and the set and the queue afterwards are those of the step |
| Timers.WaitIsBounded | sylar/iomanager.cpp:382-392 | the wait is the delay, cut off at three seconds, for all delays below 2^31; it stays between zero and three seconds and not beyond the next deadline exactly when the delay converts to a non-negative int; a delay of 2^31 gives a negative wait, that is, one without end |
| LogPattern.ScanItem | sylar/log.cpp:536-581 | the inner loop finds the item's name, format and end, or reports an unclosed format, in bounds on every input |
| LogPattern.LogFormatter.Cut | sylar/log.cpp:515-604 | the outer loop yields exactly the tokens of the pattern and sets error_ exactly for unclosed formats |
| LogPattern.LogFormatter.Build | sylar/log.cpp:605-643 | one item per token: the literal text, the field with its format for one of the twelve names, and otherwise an error text; an unknown name or an unclosed format sets error_ |
| LogPattern.RoundTrip | sylar/log.cpp:512-644 | compiling a rendered well-formed list of literals and items gives back that list, literals that end in percent signs before an item included, and error_ is set exactly when a name is not in the table |
| LogPattern.FormatterOf | sylar/log.cpp:605-643 | at the items: a formatter made from a rendered well-formed list holds, place by place, the literal, the field with its format, or the error text with the unknown name, and error_ is set exactly when a name is not one of the twelve |
| LogPattern.NamesCompile | sylar/log.cpp:608-643 | each of the twelve names, written with a format in braces between any two literals, compiles to exactly these three |
| LogPattern.BareNamesCompile | sylar/log.cpp:608-643 | and each compiles without a format |
| LogPattern.UnclosedFormat | sylar/log.cpp:582-594 | for every text, name and format that is not closed: an error item comes first, only the percent sign is dropped, and everything else is one literal |
| LogPattern.NothingLost | sylar/log.cpp:512-604 | conversely, a pattern, doubled percent signs included, is the rendering of pieces with exactly the tokens it compiles to if and only if no format is left unclosed |
| LogPattern.PercentIsNoEscape | sylar/log.cpp:526-534 | in a pattern without unclosed formats a percent sign kept by '%%' only ever stands right before an item, so it never escapes; "%%" alone is an error |
| LogConfig.Logger.SetFormatter | sylar/log.cpp:281-309 | an invalid pattern changes nothing; a valid one reaches exactly the appenders without a format of their own |
| LogConfig.Logger.Configure | sylar/log.cpp:852-892 | the level is the definition's; the appenders are those of its appender definitions in order, but no standard output for a daemon, each with its target, its level, and its own format if that is valid, otherwise the logger's; the format changes only if a valid one is given |
| LogConfig.BuiltMeans | sylar/log.cpp:859-891 | a build from scratch, place by place: all definitions but standard output for a daemon, with target, level and valid format |
| LogConfig.GoodPatternMeans | sylar/log.cpp:281-309 | a rendered well-formed pattern is valid exactly when all its names are among the twelve |
| LogConfig.LogsVariable.SetValue | sylar/config.h:388-402 | after any sequence of calls every configured logger has the level and appenders of a build from scratch, every logger no longer configured is silent, and all others are untouched |
| LogConfig.LogsVariable.ConfigureNew | sylar/log.cpp:833-893 | the first loop of the listener establishes this for the new value and touches only new or changed names |
| LogConfig.LogsVariable.SilenceRemoved | sylar/log.cpp:895-904 | the second loop sets exactly the removed loggers to level 0 without appenders |
| LogConfig.FormatRebuilds | sylar/log.cpp:853-856 | the logger's format is independent of what was configured before exactly when the definition has a valid format |
| Division.StepsLinear | deps/3rd/boost_1_84_0/include/boost/crc.hpp:555-586 | division is linear over GF(2) in register and message together |
| Division.Absorb | deps/3rd/boost_1_84_0/include/boost/crc.hpp:1151-1169 | k division steps are a shift and one correction that depends only on the k top bits combined with the k new ones |
| Division.RaiseSteps | deps/3rd/boost_1_84_0/include/boost/crc.hpp:508-554 | unaugmented division keeps, at every point, the augmented remainder times x^n |
| Division.DivisionIdentity | deps/3rd/boost_1_84_0/include/boost/crc.hpp:555-586 | division is polynomial division: for every message there is a quotient such that the message times x^n is the quotient times the divisor plus the remainder |
| Crc.ReflectUnsigned | deps/3rd/boost_1_84_0/include/boost/crc.hpp:389-400 | the swapping loop reverses the lowest bits and keeps the others |
| Crc.ModuloWordUpdate | deps/3rd/boost_1_84_0/include/boost/crc.hpp:555-586 | the loop on a wide register performs exactly the division steps of the word's bits in the order asked for, overflow cleared |
| Crc.MakeTable | deps/3rd/boost_1_84_0/include/boost/crc.hpp:976-995 | every index holds its own correction, with indices and entries reflected together |
| Crc.FlatAt | deps/3rd/boost_1_84_0/include/boost/crc.hpp:1801-1810 | bit i of byte m of a message is processed as number 8m + i, lowest first when reflected and highest first otherwise |
| Crc.CrcBasic.ProcessBits | deps/3rd/boost_1_84_0/include/boost/crc.hpp:1771-1788 | the lowest bits of a byte are processed highest first, whatever the reflection |
| Crc.CrcBasic.ProcessByte | deps/3rd/boost_1_84_0/include/boost/crc.hpp:1801-1810 | a byte is processed in the order its reflection asks for |
| Crc.CrcBasic.Checksum | deps/3rd/boost_1_84_0/include/boost/crc.hpp:1898-1907 | bit by bit: bit i of the checksum is bit i, or bit n-1-i with output reflection, of the remainder of all the bits seen, xored with the final mask; bits above the order are clear |
| TableCrc.DirectByteIsSteps | deps/3rd/boost_1_84_0/include/boost/crc.hpp:1156-1166 | one direct look-up equals eight division steps on the low bits |
| TableCrc.ReflectedByteIsSteps | deps/3rd/boost_1_84_0/include/boost/crc.hpp:1249-1260 | one reflected look-up equals the mirror image of eight division steps |
| TableCrc.UpdateDirect | deps/3rd/boost_1_84_0/include/boost/crc.hpp:1151-1169 | the table loop leaves the remainder of the whole message in the low bits, although it never clears overflow |
| TableCrc.CleanRun | deps/3rd/boost_1_84_0/include/boost/crc.hpp:1244-1263 | without overflow the reflected table loop keeps the mirror image of the remainder |
| TableCrc.UpdateSubByte | deps/3rd/boost_1_84_0/include/boost/crc.hpp:1359-1461 | orders below a byte, direct and reflected, give the bit-at-a-time remainder |
| TableCrc.CrcOptimal.ProcessBytes | deps/3rd/boost_1_84_0/include/boost/crc.hpp:2097-2110 | the computer's register always stands for the remainder of everything seen since the last reset |
| TableCrc.CrcOptimal.Checksum | deps/3rd/boost_1_84_0/include/boost/crc.hpp:2112-2124 | the same bits of the remainder of all the bytes seen, unless a reflected initial remainder of order above eight has an overflow bit; bits above the order are clear |
| CrcAgreement.TableAgrees | deps/3rd/boost_1_84_0/include/boost/crc.hpp:976-1263 | for every order, polynomial, reflection and register width: the table-driven checksum equals the bit-at-a-time one for all messages if and only if no overflow bit is set in a reflected initial remainder of order above eight |
| CrcAgreement.DirtyDiffers | deps/3rd/boost_1_84_0/include/boost/crc.hpp:1244-1263 | otherwise a message of zero bytes shows the difference |
| AugmentedCrc.UpdateAugmented | deps/3rd/boost_1_84_0/include/boost/crc.hpp:1120-1138 | the augmented table loop is plain long division of the message |
| AugmentedCrc.AugmentedChecks | deps/3rd/boost_1_84_0/include/boost/crc.hpp:2277-2304 | for whole-byte orders: zero bytes appended give the unaugmented checksum, and appended bytes give zero if and only if they are the big-endian checksum |
| UrlCodec.UrlEncode | sylar/util.cpp:446-483 | the loop with the lazily created buffer equals the per-character encoder |
| UrlCodec.UrlDecode | sylar/util.cpp:485-523 | likewise for decoding, with the jump over escapes |
| UrlCodec.RoundTrip | sylar/util.cpp:446-523 | for all byte strings and both flags, decoding gives back the string exactly when the decoder knows about pluses, none was asked for, or there was no space |
| UrlCodec.EscapeReads | sylar/util.cpp:497-510 | an escape with hexadecimal digits of either case stands for its octet |
| UrlCodec.LiteralReads | sylar/util.cpp:485-523 | every other character stands for itself, a percent sign without two digits included, and a plus for a space if that was asked for |
| UrlCodec.EncodeWrites | sylar/util.cpp:446-483 | unreserved characters and '=' are written as they are, a space as a plus if that was asked for, everything else as an escape with capital digits |
| UrlCodec.EncodeShape | sylar/util.cpp:446-483 | encoding keeps the length between one and three times the input, is the identity exactly on unreserved strings, and emits only unreserved characters, '%' and '+' |
| UrlCodec.EqualsIsTheException | sylar/util.cpp:396-417 | the table of characters left alone is the unreserved set of section 2.3 of RFC 3986 for every character but '=' |
| UrlCodec.DecodeShrinks | sylar/util.cpp:485-523 | decoding never lengthens |
| Ipv6Text.Insert | sylar/address.cpp:458-483 | the printing loop shows the first run of zero groups as "::" and every other group in hexadecimal |
| Ipv6Text.TextMeans | sylar/address.cpp:458-483 | the first run of zero groups is folded whole, and nothing else; without a zero group nothing is |
| Ipv6Text.NumberText | sylar/address.cpp:458-483 | groups have lower-case digits and no leading zeros |
| Ipv6Text.TextReads | sylar/address.cpp:458-483 | reading the text by section 2.2 of RFC 4291 returns the same eight groups and port, for every address |
| Ipv6Text.DoublesInText | sylar/address.cpp:463-479 | the text has at most one "::", and has one exactly when some group is zero |
| Ipv6Mask.CreateMask | sylar/address.cpp:24-28 | the mask has exactly its lowest 8 - bits bits set |
| Ipv6Mask.CountBytes | sylar/address.cpp:30-40 | the loop computes the population count |
| Ipv6Mask.SubnetMask | sylar/address.cpp:507-519 | the bytes written are the mask with p leading ones |
| Ipv6Mask.MaskNumber | sylar/address.cpp:507-519 | as a 128-bit number the mask is 2^128 - 2^(128-p) |
| Ipv6Mask.BroadcastAddress | sylar/address.cpp:485-494 | the bytes written are the address with its low 128-p bits set |
| Ipv6Mask.BroadcastNumber | sylar/address.cpp:485-494 | as a number: the prefix kept and the host part at its maximum |
| Ipv6Mask.PrefixLength | sylar/address.cpp:162-170 | the loop over the bytes of a mask sums up its population count |
| Ipv6Mask.MaskPopulation | sylar/address.cpp:162-170 | which for a subnet mask of prefix p is p |

## Left out

- Steps are as coarse as listed above. In the code the post-run decrement of activeThreadCount_ comes before the fiber is scheduled again, and expired timers leave the set before their callbacks are queued; between the two a second worker can see an idle runtime and leave early, so a task pinned to it would stay. The stability of stopping is stated for whole steps.
- Quiescence.NothingLeftBehind: assumes that outside threads stop submitting once a worker was told to stop, because the code accepts work at any time.
- Timeouts.ReturnLeavesNothing: speaks of the fiber's own registration; another fiber may have registered the same event in the meantime.
- Timeouts.TimeoutNotEarly: says when a timeout cannot be reported, not that one will be. Liveness and fairness are not modelled; the safety part of a lost timeout is `LostTimeouts`.
- Progress.ReadyIsInLine: says where a ready fiber is, not that its turn comes; fairness is not modelled.
- Guarantees.AssertionsNeverFail: that no program registers a taken slot is a condition on the program, and the assertion of ~Fiber needs reference counts, which are not modelled. The idle fiber is its worker's `Idling` and `idleDone`, without a state of its own; so also Guarantees.FiberLifecycle.
- Wakeups.WakeupOverRun: does not say that a waiting fiber is swapped in eventually; neither does Progress.CallbacksRunOnce for callbacks.
- Guarantees.QueueDiscipline: concerns the order of taking; no claim is made that every task is eventually taken.
- IoEvents.IoManager.AddEvent: takes look-up and growth as one step; in the code two growing threads can meet between the two locks and the later, smaller size would shrink the table.
- IoEvents.IoManager.HandleReady: after a failed assertion nothing is claimed, since the process ends. The tickle pipe is left out.
- Timers.TimerManager.ListExpired: the front stays announced only without a clock rollover and without wrap-around of the new deadlines.
- Timers.TimerManager.AddTimer: the address of a new timer differs from those of all timers before it; an allocator may hand out the address of a destroyed one again.
- Expiry.IdleExpire: for a clock that has not gone back since the last reading, as in the machine.
- Timers.Timer.Reset: the step machine has no refresh or reset; they are modelled on the timer set only.
- Ipv6Mask.SubnetMask: prefixes up to 127, since 128 writes past the address; so does BroadcastAddress.
- Ipv6Text.Insert: takes the eight groups in host order; the byte swapping around them is not part of this model.
- LogConfig.LogsVariable.SetValue: one listener, registered for good; addListener and delListener with their ids are left out, and the "d" flag is fixed. Logger formats are covered by FormatRebuilds only.
- LogPattern.ScanItem: isalpha is that of the C locale.
- Crc.MakeTable: the tables are built once per computer here, once per program in the code.
- The sleep hooks' conversion of seconds and microseconds to milliseconds, which can wrap in 32 bits.
- Guards of the hooks that call the original function at once (hooks off, unknown or closed descriptors, user non-blocking mode), and getsockopt after connect.
- stop, start, the root fiber of a scheduler that uses its caller's thread, switching between schedulers, thread creation and thread identifiers.
- Context switching and stacks, locks and the C++ memory model: a critical section is atomic here.
- IPv4 addresses and networdAddress of both families, which ANDs with the host mask; the comparison operators.
- YAML and JSON conversion of the configuration; formatting and writing of log events; sockets, environment, files.
