# Verified model of the reactor library

A Dafny model of the parts of the library where correctness depends on more than one function:
the timer queue, the calendar and time-zone conversions, the integer printer and its buffer, the
asynchronous logger, the event loop, the two pollers, and the two condition-variable queues.
`dafny verify dfyconfig.toml` checks all of it.

## How it is built

Each component that changes state has three layers.

- **A specification on values** (`TimerQueueSpec`, `AsyncLogSpec`, `EventLoopSpec`, `PollerSpec`,
  `BoundedQueueSpec`, `ThreadPoolSpec`): a `State`, an `Event` for every step that can interleave
  (a section under a mutex, one callback, one write to a descriptor), `Enabled`, `Step` and an
  invariant `Inv`.
- **Theorems over every run** (`TimerQueueRuns`, `TimerCancellation`, `TimerIdReads`, `AsyncLogRuns`,
  `EventLoopRuns`, `PollerProofs`, `BoundedQueueRuns`, `ThreadPoolRuns`, `ThreadPoolStuck`,
  `ThreadPoolShutdown`, `ThreadPoolTurns`). A run is a sequence of
  states and events of any length (`Traces.Trace`); other threads and user callbacks take any
  enabled step at any point. Where a step is defined only under the invariant, a run's steps start
  from states that have it; `StepKeeps` shows that this cuts no run short.
- **A class** whose fields are those of the C++ class, whose methods assign them in place and are
  proved equal, on `Value()`, to the specification's functions. A lemma named `...IsRun` shows that
  a whole method (`handle_read`, one turn of a loop, a call of `put`) is one of the runs that the
  theorems speak of, whatever happens while it waits or calls back, and names the method's own events
  in it.

Dates, UTC conversion, the time zone and number printing are functions and loops; the calendar
(`CivilDate.NextDay`, `DaysInMonth`), the type in force (`TimeZone.TypeAt`), and canonical text with
its parser (`Numerals.Canonical`, `Parse`) are defined on their own, and the code is proved to agree.

| files | component |
|---|---|
| `Timers`, `TimerQueueState`, `TimerQueueSpec`, `TimerQueueRuns`, `TimerCancellation`, `TimerIdReads`, `TimerQueue` | timer queue: two ordered indexes over a heap whose addresses are reused, re-entrant callbacks, the timerfd |
| `CivilDate`, `UtcTime`, `TimeZone` | Julian days, UTC fields, local time with daylight saving |
| `Numerals`, `LogStream` | integer and pointer printing into the fixed buffer |
| `AsyncLogSpec`, `AsyncLogRuns`, `AsyncLogging` | producers and one backend exchanging owned buffers |
| `EventLoopSpec`, `EventLoopRuns`, `EventLoop` | wakeup, quit, functors and dispatch |
| `PollerSpec`, `PollerProofs`, `Pollers` | `poll` and `epoll` back ends over shared channels |
| `Conditions`, `BoundedQueueSpec`, `BoundedQueueRuns`, `BoundedQueue` | bounded blocking queue |
| `ThreadPoolSpec`, `ThreadPoolRuns`, `ThreadPoolStuck`, `ThreadPoolShutdown`, `ThreadPool`, `ThreadPoolTurns` | thread pool |
| `Prelude`, `Traces` | truncating integer operators, runs of a step relation |

## Where the code falls short of what one would expect

Each is proved for the code as it is, with the exact condition under which the code does what one would
expect.

- A cancel that reaches the loop before the timer's own add is lost, and the timer fires; every other
  cancel is final (`TimerCancellation.CancelIsFinalIff`).
- `add_timer` reads its timer's sequence after handing the timer to the loop. From the loop thread that is
  safe; from another the timer can be deleted by then exactly when it is one-shot
  (`TimerIdReads.DanglesExactly`, `LoopThreadReadsLive`).
- `loop()` clears `quit_` when it is entered, so a quit is heard exactly when the loop thread is inside
  `loop()` at its store (`EventLoopRuns.LoopEndsExactly`, `QuitIsHeardExactly`).
- A functor that the loop thread queues can wait for the poll's timeout exactly when it is queued outside
  `loop()` with no wakeup on its way (`EventLoopRuns.StrandsExactly`); nothing else can (`NeverStranded`).
- `from_local_time` takes back exactly one hour at the end of daylight saving, so a zone that is set
  back in any other way loses times (`TimeZone.RoundTripExactly`, `RoundTripZones`).
- Truncating division makes dates before 1 March of year -4800 invalid, and weekdays before day -1
  wrong except on the days where the remainder is zero (`CivilDate.ValidExactlyInTheEra`,
  `DateRoundTripExactlyInRange`, `WeekDayExactlyFromDayMinusOne`).
- A log message as long as a buffer is lost without a notice (`AsyncLogRuns.MessageKeptIffShort`), and
  `stop` leaves messages exactly when some shorter one was appended after the backend's last collection:
  what the producers hold at the stop, unless the backend is between its test of `running_` and its
  collection (`AsyncLogRuns.LeftAtExit`, `LeftByStop`).
- The `poll` back end keeps the index of a removed channel, so registering it again fails an assertion
  for ever after (`PollerProofs.RemovedIsRefused`, `PollAcceptsExactly`), and it does not mask
  a first registration without events (`PollFirstMaskMatters`). The `epoll` back end does neither.
- A pool with tasks can come to a state in which every worker sleeps. It can exactly when it is bounded,
  tasks on every worker may call `run`, and some other thread may (`ThreadPoolStuck.SticksExactly`).
- A stopped pool leaves tasks in its queue exactly when there are more than workers in `take`
  (`ThreadPoolShutdown.StoppedPoolLeaves`).

## Model

| member | source | states |
|---|---|---|
| `TimerQueueRuns.EveryRunIsConsistent` | src/net/timer_queue_t.cpp:112-219 | After any interleaving of constructions, adds, cancels, ticks and `handle_read` with re-entrant callbacks: `timers_` and `active_timers_` have equal size and hold the same timers under their current expiration and sequence; every queued or in-flight key points at a live timer; every live timer has exactly one owner (its pending add, the queue, or the batch); sequences are unique; nothing fired early |
| `TimerQueueRuns.StepKeeps` | src/net/timer_queue_t.cpp:103-219 | Every step keeps the whole invariant: index bijection, ownership, arming, the log of firings |
| `TimerQueueRuns.EveryStateHolds` | src/net/timer_queue_t.cpp:103-219 | The invariant, once it holds, holds in every later state of every run |
| `TimerQueueRuns.FiringsAreSpaced` | src/net/timer_queue_t.cpp:173-184 | Over any run a one-shot timer fires at most once; two firings of a repeating one are in different batches, and their times at least its interval in seconds apart, to the microsecond |
| `TimerQueueRuns.SurvivorExpires` | src/net/timer_queue_t.cpp:173-184 | A member of the batch is back in the queue if and only if its interval is positive and its id was not cancelled meanwhile; it then expires its interval in seconds after the batch's time, rounded down to microseconds |
| `TimerQueueRuns.ArmedForAHead` | src/net/timer_queue_t.cpp:28-62 | In every run, whenever the timerfd is armed, it was set for the timer that was the earliest at that moment: for its expiration, or for 100 us later if that was nearer |
| `Timers.RestartAddsInterval` | src/net/timer_t.cpp:9-15 | A restart adds the interval in seconds, rounded down to microseconds, or makes a one-shot timer invalid, and changes nothing else |
| `TimerQueueRuns.BatchFiresInOrder` | src/net/timer_queue_t.cpp:142-144 | At the end of the callback loop the last firings are the batch's members, each once, in ascending order, whatever the callbacks cancelled or added |
| `TimerQueueRuns.BeginTakesTheDue` | src/net/timer_queue_t.cpp:131-171 | `get_expired` moves to the batch exactly the timers with expiration <= now, in ascending order, and removes exactly those from both indexes; the read leaves the timerfd unreadable |
| `TimerQueueRuns.DueTimersWake` | src/net/timer_queue_t.cpp:103-110 | Outside `handle_read` a non-empty queue has the timerfd armed no later than max(earliest expiration, arming time + 100 us), although `cancel_in_loop` never re-arms it; past that time the descriptor is readable and the next batch holds the earliest timer |
| `TimerQueueRuns.FinishShape` | src/net/timer_queue_t.cpp:173-192 | The end of `handle_read` re-arms or deletes each member of the batch and touches no other timer |
| `TimerCancellation.CancelIsFinal` | src/net/timer_queue_t.cpp:112-148 | Once the add was processed, no `handle_read` that starts after `cancel_in_loop(id)` runs that timer, also when a callback of the current batch cancels itself or another member |
| `TimerCancellation.CancelIsFinalIff` | src/net/timer_queue_t.cpp:97-129 | For every issued id: some run starting with its cancel fires it in a later batch if and only if its add is still pending |
| `TimerCancellation.CancelOfPendingIsLost` | src/net/timer_queue_t.cpp:87-101 | Constructs that run: the cancel overtakes the add, and the timer fires |
| `TimerCancellation.CancelDooms` | src/net/timer_queue_t.cpp:112-129 | After a cancel the timer with that sequence is gone, or is in the batch in progress and will not be put back |
| `TimerCancellation.CancelSparesOthers` | src/net/timer_queue_t.cpp:116-127 | A cancel with any id, stale ids of reused addresses included, leaves every timer with another id in its place and with its future unchanged |
| `TimerIdReads.DanglesExactly` | src/net/timer_queue_t.cpp:87-95 | For every state and construction: some run in which nobody cancels the new id reaches a state where the timer is gone, so that a foreign thread's read of its sequence is of a deleted object, if and only if the timer is one-shot |
| `TimerIdReads.LoopThreadReadsLive` | src/net/timer_queue_t.cpp:87-95 | The loop thread, which adds the timer on the spot, always reads a live one |
| `TimerIdReads.StaysLive` | src/net/timer_queue_t.cpp:173-184 | A repeating timer lives on in every run until its own id is cancelled |
| `Timers.ExpiredCountSplits` | src/net/timer_queue_t.cpp:155-160 | The sentry (now, UINTPTR_MAX) with `lower_bound` splits the ordered set exactly at expiration <= now |
| `Timers.InsertedIsSet` | src/net/timer_queue_t.cpp:207-209 | Insertion adds one entry to the ordered set, keeps it sorted, and changes the head exactly when the entry is below it |
| `Timers.ErasedIsSet` | src/net/timer_queue_t.cpp:120-122 | Erasure removes exactly that entry, keeps it sorted, and never lowers the head |
| `Timers.TimespecIsClampedDelay` | src/net/timer_queue_t.cpp:28-38 | The `timespec` is normalized, denotes exactly the delay, at least 100 us, and is never the zero that would disarm the descriptor |
| `TimerQueueState.SizesAgree` | src/net/timer_queue_t.cpp:114-128 | The size assertions follow from the bijection |
| `TimerQueueSpec.ResetAllResult` | src/net/timer_queue_t.cpp:173-184 | `reset` keeps exactly the repeating, uncancelled members, restarted from `now`, deletes the other members, and leaves all other timers alone |
| `TimerQueueObject.TimerQueue.NewTimerObject` | src/net/timer_t.h:19-26 | The id is new, also when the address is not |
| `TimerQueueObject.TimerQueue.InsertTimer` | src/net/timer_queue_t.cpp:194-219 | Enters both indexes; returns whether the timer became the earliest |
| `TimerQueueObject.TimerQueue.AddTimerInLoop` | src/net/timer_queue_t.cpp:103-110 | The insertion, and re-arming exactly when the earliest changed |
| `TimerQueueObject.TimerQueue.CancelTimer` | src/net/timer_queue_t.cpp:112-129 | Erases from both indexes and deletes, or records the id while callbacks run, or does nothing |
| `TimerQueueObject.TimerQueue.TakeExpired` | src/net/timer_queue_t.cpp:150-171 | The loop over the batch removes it from `active_timers_`; the result is exactly the due entries |
| `TimerQueueObject.TimerQueue.Reset` | src/net/timer_queue_t.cpp:173-192 | The loop over the batch refines the specification's recursion |
| `TimerQueueObject.TimerQueue.HandleReadEvent` | src/net/timer_queue_t.cpp:131-148 | The whole of `handle_read`, with an arbitrary sequence of adds, cancels and constructions during each callback |
| `TimerQueueObject.HandleReadIsRun` | src/net/timer_queue_t.cpp:131-148 | That method is a run, so every theorem above applies to it: its own steps are one `Begin`, one `Call` for each timer of the batch and one `Finish`, and after each call comes just what the callback does |
| `CivilDate.DateRoundTrip` | src/base/date_t.cpp:14-34 | `get_year_month_day` undoes `get_julian_day_number` on every valid Gregorian date from 1 March of year -4800 |
| `CivilDate.DayRoundTrip` | src/base/date_t.cpp:22-34 | Every day from -32044 on is a valid date, and `get_julian_day_number` gives the day back |
| `CivilDate.NextDayNumber` | src/base/date_t.cpp:14-20 | The calendar's next date has the next day number |
| `CivilDate.ConsecutiveDays` | src/base/date_t.cpp:22-34 | Consecutive day numbers give consecutive dates of the calendar, by its own rule of month lengths and leap years |
| `CivilDate.ValidExactlyInTheEra` | src/base/date_t.cpp:22-34 | The fields are a valid date if and only if the day is at least -32044 |
| `CivilDate.DateRoundTripExactlyInRange` | src/base/date_t.cpp:14-34 | A valid date survives the round trip if and only if it is not before 1 March of year -4800 |
| `CivilDate.WeekDayExactlyFromDayMinusOne` | src/base/date_t.h:58-60 | The weekday is the calendar's if and only if the day is at least -1, or the truncated remainder is zero; the epoch is day 2440588 |
| `CivilDate.DayOfYear` | src/base/time_zone.cpp:293-296 | The difference from 1 January counts the days of the months before, plus the day |
| `CivilDate.IntermediatesFitExactly` | src/base/date_t.cpp:22-34 | No intermediate overflows a 32-bit `int` if and only if the day is at most the given limit |
| `UtcTime.UtcRoundTrip` | src/base/time_zone.cpp:275-311 | `from_utc_time(to_utc_time(t)) == t`, and the fields are valid, for negative as for positive seconds |
| `UtcTime.TmRoundTrip` | src/base/time_zone.cpp:275-311 | `to_utc_time(from_utc_time(tm))` is the same instant for every valid date and time |
| `UtcTime.NextSecond` | src/base/time_zone.cpp:275-298 | The fields of t + 1 are those of t moved on by one tick of clock and calendar |
| `UtcTime.UtcDayFields` | src/base/time_zone.cpp:286-296 | `tm_wday` is the calendar's from Julian day -1 on, and `tm_yday` counts the days since 1 January for every year after -4800 |
| `UtcTime.HmsUnique` | src/base/time_zone.cpp:65-70 | `fillHMS` finds the only hour, minute and second that add up |
| `UtcTime.SplitSeconds` | src/base/time_zone.cpp:279-284 | The correction after C's division gives the day and the second of the day |
| `TimeZone.LowerBound` | src/base/time_zone.cpp:199-202 | The binary search, under either key: everything before the result is below the sentry, and nothing from it on |
| `TimeZone.FindLocaltime` | src/base/time_zone.cpp:192-216 | The search with its step back refines a linear scan: the type of the last transition at or before the key, or the first type |
| `TimeZone.ToLocalTime` | src/base/time_zone.cpp:235-253 | The UTC fields of the shifted time, with the flag and offset of the type in force |
| `TimeZone.FromLocalTime` | src/base/time_zone.cpp:255-273 | The search by local key, and the correction for a time that is DST but whose guess is not |
| `TimeZone.RoundTripValue` | src/base/time_zone.cpp:235-273 | What the round trip returns for every time: `t` outside a fold, and inside one `t` less the change and the source's hour |
| `TimeZone.RoundTripExactly` | src/base/time_zone.cpp:255-273 | `from_local_time(to_local_time(t)) == t` if and only if `t` is not in a fold, or the fold ends DST by exactly 3600 s |
| `TimeZone.RoundTripZones` | src/base/time_zone.cpp:255-273 | Every time survives the round trip if and only if all set-backs of the zone, counting the initial type, end DST by exactly 3600 s |
| `TimeZone.LocalTimesDistinct` | src/base/time_zone.cpp:235-253 | In such a zone no two times share local fields and flag |
| `TimeZone.LocalFields` | src/base/time_zone.cpp:235-253 | All fields of a local time: the instant shifted by the offset in force, its weekday and day of the year, the flag, and `tm_gmtoff` |
| `TimeZone.SkippedTimes` | src/base/time_zone.cpp:255-273 | A local time that a transition skips is read on the clock in force before it |
| `TimeZone.SkippedDstTimes` | src/base/time_zone.cpp:263-271 | With the daylight flag too, when between a minute and a day less a minute is skipped, so that the comparison of hour and minute fails |
| `TimeZone.LocalKeyFinds` | src/base/time_zone.cpp:255-262 | Which transition the local key finds, in and out of a fold |
| `TimeZone.LocalKeysIncrease` | src/base/time_zone.cpp:168-172 | In a separated zone the transitions are increasing by local time too, as the search needs |
| `Numerals.DecimalParses` | src/base/log_stream.cpp:31-47 | The decimal text is canonical (no leading zero, no minus zero) and parses back to the value |
| `Numerals.CanonicalIsDecimal` | src/base/log_stream.cpp:31-47 | Every canonical text is the text of the value it reads as |
| `Numerals.DecimalLength` | src/base/log_stream.cpp:31-47 | 1 to 20 characters for every signed or unsigned 64-bit value |
| `Numerals.PointerParses` | src/base/log_stream.cpp:242-253 | `0x` and hexadecimal digits that parse back to the value |
| `Numerals.PointerLength` | src/base/log_stream.cpp:242-253 | 3 to 18 characters |
| `LogStream.ZeroIndexes` | src/base/log_stream.cpp:24-40 | The remainder of a negative number, used as an index from the middle of the digit table, picks the right digit, with no negation |
| `LogStream.Convert` | src/base/log_stream.cpp:31-47 | For every integer, the minimum included, the array holds its decimal text and a terminator, and nothing else changed |
| `LogStream.ConvertHex` | src/base/log_stream.cpp:49-61 | The same for hexadecimal |
| `LogStream.ReverseRange` | src/base/log_stream.cpp:45 | In-place reversal of a range |
| `LogStream.InsertionsStayInside` | src/base/log_stream.cpp:194-253 | No sequence of integer, pointer and text insertions brings the cursor to the end of the buffer; the buffer holds the texts that were kept, in order; a text is kept if and only if more characters are free than it has, and a number if and only if 48 are |
| `LogStream.FixedBuffer.Append` | src/base/log_stream.h:27-32 | Appends what is shorter than the room left, and ignores anything else |
| `LogStream.FixedBuffer.Add` | src/base/log_stream.h:50-52 | What the caller wrote at the cursor becomes content |
| `LogStream.Stream.InsertInteger` | src/base/log_stream.cpp:194-200 | The decimal text is added when 48 bytes are free, and nothing otherwise |
| `LogStream.Stream.InsertPointer` | src/base/log_stream.cpp:242-253 | Likewise for the pointer text, written in place after `0x` |
| `LogStream.Stream.InsertItems` | src/base/log_stream.cpp:194-253 | Any sequence of insertions on the real buffer equals the specification, and the cursor stays inside |
| `AsyncLogRuns.EveryStateHolds` | src/base/async_logging.cpp:29-114 | The invariant of buffers, messages and file in every reachable state |
| `AsyncLogRuns.EveryMessageIsSomewhere` | src/base/async_logging.cpp:29-114 | Under any interleaving of producers, `stop` and backend, the messages shorter than a buffer, in append order, are exactly those in finished buffers (written or dropped), then the backend's, then the producers' |
| `AsyncLogRuns.MessageKeptIffShort` | src/base/async_logging.cpp:29-44 | A message is kept if and only if it is shorter than a buffer |
| `AsyncLogRuns.HandedOverWhenFull` | src/base/async_logging.cpp:29-44 | The current buffer is handed over if and only if the message does not leave a byte to spare in it, and the spare or a new buffer takes its place with the message, if that fits in one |
| `AsyncLogRuns.NothingDropped` | src/base/async_logging.cpp:87-90 | While the file holds no notice, its bytes and what is held make up all that was appended, in order |
| `AsyncLogRuns.SparesAtLoopTop` | src/base/async_logging.cpp:57-68 | The assertions at the loop top hold for ever, and what they say lasts until the collection; the spares are empty, and aliased neither with each other nor with any buffer of the producers |
| `AsyncLogRuns.RecycleShape` | src/base/async_logging.cpp:92-109 | Both spares can be refilled from what was written, so no assertion in the refill fails |
| `AsyncLogRuns.AppendShape` | src/base/async_logging.cpp:29-44 | Producers keep: a current buffer, and with no next buffer a non-empty vector |
| `AsyncLogRuns.AppendOwned` | src/base/async_logging.cpp:34-38 | An append never makes two owners of one buffer |
| `AsyncLogRuns.RecycleOwned` | src/base/async_logging.cpp:92-111 | Nor does recycling |
| `AsyncLogRuns.WriteRecorded` | src/base/async_logging.cpp:87-90 | The data of the file are the written buffers in order, and the notices count the dropped ones |
| `AsyncLogRuns.ProducersHold` | src/base/async_logging.cpp:56-73 | In every reachable state the producers hold exactly the messages shorter than a buffer that were appended after the backend's last collection, in order |
| `AsyncLogRuns.LeftAtExit` | src/base/async_logging.cpp:56-114 | When the backend has exited, what it finished is everything but those: nothing is left if and only if no message shorter than a buffer was appended after the last collection |
| `AsyncLogRuns.LeftByStop` | src/base/async_logging.cpp:56-73 | From a stopped state with no later append: what is left at the exit is nothing if the backend is past its test of `running_` and has not collected, which it then does, and otherwise what the producers hold at the stop; all that was appended gets finished if and only if the backend is there at the stop, or the producers hold nothing |
| `AsyncLogRuns.ResidueAfterStop` | src/base/async_logging.h:39-43 | The shortest run that leaves one |
| `AsyncLogRuns.PutIsAppend` | src/base/async_logging.cpp:31-41 | The list of messages of a buffer stands for the contents that `fixed_buffer::append` gives it |
| `AsyncLoggingObject.RoundDrops` | src/base/async_logging.cpp:61-90 | Whatever is appended meanwhile, a round finishes the buffers it collected in their order, and drops exactly the third and later of a batch larger than 25 |
| `AsyncLoggingObject.AsyncLogging.Append` | src/base/async_logging.cpp:29-44 | The producers' critical section on the real fields |
| `AsyncLoggingObject.AsyncLogging.CollectBuffers` | src/base/async_logging.cpp:61-73 | The backend's critical section |
| `AsyncLoggingObject.AsyncLogging.TrimExcess` | src/base/async_logging.cpp:77-85 | The notice, and the cut to two buffers |
| `AsyncLoggingObject.AsyncLogging.WriteBuffers` | src/base/async_logging.cpp:87-90 | The writing loop, with other threads before each write and after the last |
| `AsyncLoggingObject.AsyncLogging.RecycleBuffers` | src/base/async_logging.cpp:92-111 | The refill of both spares, and the clear |
| `AsyncLoggingObject.AsyncLogging.Round` | src/base/async_logging.cpp:56-113 | One turn of the loop, with producers and `stop` at every point where the lock is free, the wait included |
| `AsyncLoggingObject.AsyncLogging.ThreadFunc` | src/base/async_logging.cpp:46-115 | The loop equals its rounds one after the other, until `running_` is found false, and then exits |
| `AsyncLoggingObject.RoundIsRun` | src/base/async_logging.cpp:56-113 | A turn, wherever appends and a stop fall in it, is the run of exactly these events: the test, the collection, the trim, a write for each collected buffer, or two if they are more than 25, and the recycling, with every append and stop in its place |
| `AsyncLoggingObject.MeanwhileIsRun` | src/base/async_logging.cpp:29-44 | What others do meanwhile is the run of all their appends and stops, and nothing else |
| `AsyncLoggingObject.ThreadIsRun` | src/base/async_logging.cpp:46-115 | So is the backend from its first round to its exit, so the theorems tell what it writes, drops and leaves |
| `AsyncLoggingObject.ThreadTakesRounds` | src/base/async_logging.cpp:56-114 | The backend goes through one round after the other, each begun with `running_` set, and exits as soon as it is not, or they are used up |
| `AsyncLoggingObject.RoundsAreFinished` | src/base/async_logging.cpp:56-114 | The buffers that each of these rounds collects are finished, in order, by its end and at the exit |
| `AsyncLoggingObject.FirstBatchIsFinished` | src/base/async_logging.cpp:56-114 | So a running backend finishes what its first collection takes before it exits |
| `AsyncLoggingObject.UnstoppedTakesAll` | src/base/async_logging.cpp:56-114 | A backend that nobody stops exits only when the rounds are used up |
| `EventLoopRuns.StepKeeps` | src/net/event_loop_t.cpp:79-204 | Every step of the loop thread and of foreign threads keeps the invariant |
| `EventLoopRuns.EveryStateHolds` | src/net/event_loop_t.cpp:79-204 | The invariant in every reachable state |
| `EventLoopRuns.NeverStranded` | src/net/event_loop_t.cpp:122-132 | If the loop thread queues only inside `loop()`, then whenever it polls with functors pending or a quit issued, the eventfd is positive or a foreign thread is between its store and its write |
| `EventLoopRuns.StrandedOnlyIfEarly` | src/net/event_loop_t.cpp:106-132 | Without that assumption: work is stranded only if the loop thread queued a functor outside `loop()` that no drain has taken since, and a quit never is |
| `EventLoopRuns.EarlyMeansQueuedOutside` | src/net/event_loop_t.cpp:128-130 | That such a functor exists means that such a call was made |
| `EventLoopRuns.StrandsExactly` | src/net/event_loop_t.cpp:122-132 | From any state where the loop thread runs user code: some run that begins with its `queue_in_loop` blocks in poll before the functor is taken, with no wakeup on its way, if and only if it is outside `loop()`, the eventfd is zero and no foreign thread owes a write |
| `EventLoopRuns.StrandedWhenQueuedOutside` | src/net/event_loop_t.cpp:128-130 | The shortest such run from a new loop |
| `EventLoopRuns.LoopEndsExactly` | src/net/event_loop_t.cpp:79-112 | In every run, a test of `quit_` ends the loop if and only if some quit was stored while the loop thread was inside `loop()` and since the test before |
| `EventLoopRuns.QuitIsHeardExactly` | src/net/event_loop_t.cpp:79-112 | The first test after a quit, with no other quit between, ends the loop if and only if the quit was stored inside `loop()` |
| `EventLoopRuns.QuitBeforeLoopIsLost` | src/net/event_loop_t.cpp:80 | A run in which a quit completed before `loop()` is forgotten: even its write only causes one idle round, after which the loop blocks |
| `EventLoopRuns.RemovalIsSafeExactly` | src/net/event_loop_t.cpp:156-163 | A removal during dispatch leaves all that is still to be dispatched registered if and only if the channel is not among it; the assertion makes sure of that |
| `EventLoopRuns.FunctorsRunInOrder` | src/net/event_loop_t.cpp:190-204 | Functors run exactly once each, in queue order, and one queued during a drain waits for a later drain |
| `EventLoopRuns.DispatchedAreRegistered` | src/net/event_loop_t.cpp:94-97 | Given the assertion of `remove_channel`, every channel that the loop comes to handle is still registered |
| `EventLoopRuns.HandlesWhatPollReports` | src/net/event_loop_t.cpp:85-100 | In every run, between a report of poll and the drain the channels handled are exactly those reported, in order and each once |
| `EventLoopRuns.DrainRunsAll` | src/net/event_loop_t.cpp:190-204 | By the end of a drain exactly the functors queued before it have run |
| `EventLoopRuns.QueuedAreCalls` | src/net/event_loop_t.cpp:122-132 | What these theorems count as queued are the functors passed to `queue_in_loop`, in lock order |
| `EventLoopRuns.RegisteredAreCalls` | src/net/event_loop_t.cpp:147-164 | What they count as registered are the channels last registered, and not removed since |
| `EventLoopObject.EventLoop.QueueInLoop` | src/net/event_loop_t.cpp:122-132 | By the loop thread: the push, and the write during a drain; by a foreign thread: the push, whatever steps the loop and other threads take, and the write |
| `EventLoopObject.StoreAndWriteIsRun` | src/net/event_loop_t.cpp:122-132 | A foreign store, any steps, and the write of the same thread are a run: the write is always still possible |
| `EventLoopObject.QueueIsStoreThenWrite` | src/net/event_loop_t.cpp:122-132 | With nothing between, a foreign thread has queued the functor and made the eventfd positive |
| `EventLoopObject.QuitIsStoreThenWrite` | src/net/event_loop_t.cpp:106-112 | Likewise for a foreign quit |
| `EventLoopObject.OwesUntilWrite` | src/net/event_loop_t.cpp:123-130 | Whatever comes between a foreign store and its write, the write stays possible and the loop is not stranded |
| `EventLoopObject.EventLoop.RunInLoop` | src/net/event_loop_t.cpp:114-120 | In the loop thread the functor is called on the spot, with whatever it does, and is not queued; by a foreign thread it is queued, with whatever comes before its write |
| `EventLoopObject.RunInLoopIsRun` | src/net/event_loop_t.cpp:114-120 | Either way it is a run |
| `EventLoopObject.EventLoop.Quit` | src/net/event_loop_t.cpp:106-112 | The flag; by a foreign thread then whatever others do, and the write |
| `EventLoopObject.QuitIsRun` | src/net/event_loop_t.cpp:106-112 | That is a run |
| `EventLoopObject.EventLoop.RemoveChannel` | src/net/event_loop_t.cpp:153-164 | What the assertion asks of the caller is enough: the channel is unregistered, and what is still to be dispatched is not |
| `EventLoopObject.EventLoop.DispatchActive` | src/net/event_loop_t.cpp:93-97 | The dispatch loop, with interruptions |
| `EventLoopObject.EventLoop.DoPendingFunctors` | src/net/event_loop_t.cpp:190-204 | The swap under the lock, and the calls outside it |
| `EventLoopObject.EventLoop.LoopBody` | src/net/event_loop_t.cpp:93-100 | One turn of the loop |
| `EventLoopObject.LoopBodyIsRun` | src/net/event_loop_t.cpp:93-100 | A turn, with any handlers, functors and foreign threads, is a run: the channels that poll reported are handled, all and in order, and then as many functors called as are pending when they are taken |
| `EventLoopObject.OwnQueueing` | src/net/event_loop_t.cpp:122-132 | The loop thread's own call queues the functor, and makes the eventfd positive exactly in a drain |
| `PollerProofs.PollSetKeeps` | src/net/poller/poll_poller_t.cpp:43-76 | For a legal change of mask every assertion of `update_channel` holds, and `channels_` and `poll_fds_` stay in bijection through the indexes, with fds (decoded) and masks right |
| `PollerProofs.PollRemoveKeeps` | src/net/poller/poll_poller_t.cpp:78-108 | So they do through the swap with the last slot |
| `PollerProofs.PollMayRemoveIdle` | src/net/poller/poll_poller_t.cpp:81-89 | The assertions of `remove_channel` hold for every registered channel without events |
| `PollerProofs.PollAcceptsExactly` | src/net/poller/poll_poller_t.cpp:47-66 | The assertions of `update_channel` hold if and only if the channel is registered, or has no index and its fd is free |
| `PollerProofs.PollIndexGoesStale` | src/net/poller/poll_poller_t.cpp:91-107 | After a removal the index remains, and an `update_channel` of that channel fails an assertion |
| `PollerProofs.RemovedIsRefused` | src/net/poller/poll_poller_t.cpp:58-60 | So it does, with any mask, after every legal trace that begins with the removal |
| `PollerProofs.EpollTakesBack` | src/net/poller/epoll_poller_t.cpp:112-115 | The epoll back end accepts the channel again |
| `PollerProofs.PollFirstMaskMatters` | src/net/poller/poll_poller_t.cpp:47-57 | A first registration keeps the invariant if and only if its mask is not empty; with an empty one the next `remove_channel` fails an assertion |
| `PollerProofs.PollWatchesWanted` | src/net/poller/poll_poller_t.cpp:65-75 | The unmasked slots are exactly the channels that want events, with their masks |
| `PollerProofs.EpollSetKeeps` | src/net/poller/epoll_poller_t.cpp:67-97 | The assertions hold, the `epoll_ctl` succeeds (ADD on an absent fd, MOD and DEL on a present one), and the marks stay right |
| `PollerProofs.EpollRemoveKeeps` | src/net/poller/epoll_poller_t.cpp:99-116 | Likewise for removal |
| `PollerProofs.EpollKernelIsAdded` | src/net/poller/epoll_poller_t.cpp:67-116 | The kernel set is exactly the channels marked added, each under its own fd and mask |
| `PollerProofs.EpollWatchesWanted` | src/net/poller/epoll_poller_t.cpp:144-161 | Its non-empty masks are exactly what the channels want |
| `PollerProofs.StepAlike` | src/net/poller/epoll_poller_t.cpp:67-116 | What the poll back end accepts the epoll back end accepts, and they end up with the same channels and masks |
| `PollerProofs.PollersAgree` | src/net/poller/poll_poller_t.cpp:43-108 | After any legal trace of channel operations both watch the same fds for the same events: those the channels want |
| `PollerProofs.FreshPollersAlike` | src/net/poller/poll_poller_t.cpp:16-19 | Fresh pollers are where such a trace may start |
| `PollerProofs.PollRegisters` | src/net/poller/poll_poller_t.cpp:43-108 | Of the registered channels an update adds the channel at most, and a removal takes away that one only: to the event loop the poller is a set |
| `PollerProofs.EpollRegisters` | src/net/poller/epoll_poller_t.cpp:67-116 | Likewise |
| `PollerProofs.ScanReportsOnce` | src/net/poller/poll_poller_t.cpp:110-124 | The scan reports registered ready channels, none twice; it reports all of them if and only if the count it is given is at least the number of ready slots |
| `PollerProofs.ScanKeepsOrder` | src/net/poller/poll_poller_t.cpp:110-124 | It reports them in the order of their slots |
| `PollerProofs.PollSetClears` | src/net/poller/poll_poller_t.cpp:65-74 | An update clears the slot's `revents` and touches no other slot |
| `PollerProofs.EpollReportsRegistered` | src/net/poller/epoll_poller_t.cpp:133-142 | Every pointer that the kernel hands back is a registered channel, and none comes twice |
| `Pollers.PollPoller.UpdateChannel` | src/net/poller/poll_poller_t.cpp:43-76 | The update of vector, map and index in place |
| `PollerSpec.ApplyChangesMask` | src/net/channel_t.h:66-89 | By the bits: enabling reading sets POLLIN and POLLPRI and disabling clears them, enabling writing sets POLLOUT and disabling clears it, all other bits stay, and disabling all clears everything |
| `PollerProofs.OneOperation` | src/net/channel_t.h:66-89 | After one operation both pollers watch the channel's fd for its old mask with just those bits changed, or not at all if none is left, and every other fd as before |
| `Pollers.Channel.ChangeMask` | src/net/channel_t.h:66-89 | The operation on the channel's own mask |
| `Pollers.PollPoller.Change` | src/net/channel_t.h:66-89 | The mask operation, by its bits, and its update; the bijection holds after it |
| `Pollers.PollPoller.RemoveChannel` | src/net/poller/poll_poller_t.cpp:78-108 | The swap and pop in place; the moved channel's index is set, and the lookup for it succeeds |
| `Pollers.PollPoller.FillActiveChannels` | src/net/poller/poll_poller_t.cpp:110-124 | The early-exit scan returns the channels of the first ready slots, in slot order, each with its slot's `revents` |
| `Pollers.EpollPoller.Update` | src/net/poller/epoll_poller_t.cpp:144-161 | The effect of `epoll_ctl` on the kernel set; a failed ADD or MOD ends the process, a failed DEL does not |
| `Pollers.EpollPoller.UpdateChannel` | src/net/poller/epoll_poller_t.cpp:67-97 | The state machine of the index, and when the process survives |
| `Pollers.EpollPoller.Change` | src/net/channel_t.h:66-89 | The mask operation, by its bits, and its update; the marks are right after it, and the process survives |
| `Pollers.EpollPoller.RemoveChannel` | src/net/poller/epoll_poller_t.cpp:99-116 | Removal, from the kernel set too when the channel was added |
| `Pollers.EpollPoller.FillActiveChannels` | src/net/poller/epoll_poller_t.cpp:133-142 | One channel for each reported event, with its `revents` |
| `Conditions.NotifyServes` | src/base/bounded_blocking_queue.h:29 | While some thread sleeps, one more thing and one more notification keep as many threads on their way as there are things |
| `Conditions.SleepStirResume` | src/base/bounded_blocking_queue.h:46-48 | To wait, wake up spuriously and resume leaves a condition variable as it was |
| `BoundedQueueRuns.StepKeeps` | src/base/bounded_blocking_queue.h:20-54 | Every locked pass and every spurious wakeup keeps the invariant |
| `BoundedQueueRuns.EveryStateHolds` | src/base/bounded_blocking_queue.h:20-54 | The invariant in every reachable state |
| `BoundedQueueRuns.NoWakeupIsLost` | src/base/bounded_blocking_queue.h:20-54 | For any number of threads: a sleeping taker implies that the queue is no longer than the notified takers, and dually for putters and free slots |
| `BoundedQueueRuns.ElementsAreNeverSleptOn` | src/base/bounded_blocking_queue.h:44-54 | With an element and a sleeping taker, a notified taker can go on, and takes the first element |
| `BoundedQueueRuns.SlotsAreNeverSleptOn` | src/base/bounded_blocking_queue.h:20-30 | With a free slot and a sleeping putter, a notified putter can go on, and puts its own value |
| `BoundedQueueRuns.NeverAllAsleep` | src/base/bounded_blocking_queue.h:20-54 | Takers and putters never sleep at once with nobody notified, unless the capacity is zero |
| `BoundedQueueRuns.FirstInFirstOut` | src/base/bounded_blocking_queue.h:28-51 | Elements leave in the order of acceptance, each once, and the capacity holds |
| `BoundedQueueRuns.PutsAreKept` | src/base/bounded_blocking_queue.h:20-30 | Of each thread the queue accepts what it put, in its order and each once, save the value it waits to put |
| `BoundedQueueRuns.OfferedAreCalls` | src/base/bounded_blocking_queue.h:20-30 | What that counts as put are the calls of `put`, in lock order |
| `BoundedQueueRuns.PutOutcome` | src/base/bounded_blocking_queue.h:20-30 | A pass of `put` either pushes its value, when there is room, or sleeps with it |
| `BoundedQueueRuns.TakeOutcome` | src/base/bounded_blocking_queue.h:44-54 | A pass of `take` either pops the first element, when there is one, or sleeps |
| `BoundedQueueObject.BoundedBlockingQueue.Put` | src/base/bounded_blocking_queue.h:20-30 | The wait loop of `put`, with other threads at each wait |
| `BoundedQueueObject.BoundedBlockingQueue.Take` | src/base/bounded_blocking_queue.h:44-54 | The wait loop of `take` |
| `BoundedQueueObject.PutIsRun` | src/base/bounded_blocking_queue.h:20-30 | A call of `put`, whatever happens in its waits, is a run |
| `BoundedQueueObject.TakeIsRun` | src/base/bounded_blocking_queue.h:44-54 | So is a call of `take` |
| `BoundedQueueObject.PutEnds` | src/base/bounded_blocking_queue.h:20-30 | Whatever happens in its waits, a call of `put` ends with its value accepted, or asleep with it: it never gives up awake |
| `BoundedQueueObject.TakeEnds` | src/base/bounded_blocking_queue.h:44-54 | Likewise a call of `take` |
| `BoundedQueueObject.SpuriousPut` | src/base/bounded_blocking_queue.h:23-26 | A spurious wakeup at a full queue makes no difference to the rest of the call |
| `BoundedQueueObject.FreedPut` | src/base/bounded_blocking_queue.h:20-54 | When another thread takes an element and notifies the putter, that element leaves and the value goes in |
| `BoundedQueueObject.SpuriousTake` | src/base/bounded_blocking_queue.h:46-48 | A spurious wakeup at an empty queue makes no difference |
| `BoundedQueueObject.FedTake` | src/base/bounded_blocking_queue.h:20-54 | When another thread puts an element and notifies the taker, it gets that element |
| `BoundedQueueObject.OthersKeepWants` | src/base/bounded_blocking_queue.h:23-26 | Whatever other threads do, a waiting putter keeps its place and value |
| `ThreadPoolRuns.StepKeeps` | src/base/thread_pool.cpp:36-105 | Every step of callers, workers and `stop` keeps the invariant |
| `ThreadPoolRuns.EveryStateHolds` | src/base/thread_pool.cpp:36-105 | The invariant in every reachable state |
| `ThreadPoolRuns.TasksLeaveInOrder` | src/base/thread_pool.cpp:54-88 | What was dequeued is a prefix of what was accepted and the queue is the rest, so tasks leave in order and at most once; a bounded queue keeps its limit |
| `ThreadPoolRuns.CallOutcome` | src/base/thread_pool.cpp:54-68 | A pass of `run` queues its task in a running pool with room, sleeps with it in a full one, and drops it in a stopped one |
| `ThreadPoolRuns.TakeOutcome` | src/base/thread_pool.cpp:70-88 | A pass of `take` starts the first task if there is one, and otherwise sleeps in a running pool, and in a stopped one returns without |
| `ThreadPoolRuns.NoWakeupIsLost` | src/base/thread_pool.cpp:54-92 | A sleeping worker implies that the queue is no longer than the notified workers, and dually for callers of a bounded pool |
| `ThreadPoolRuns.StuckOnlyInTasks` | src/base/thread_pool.cpp:54-88 | If there are tasks and every worker sleeps, then the pool is bounded and every worker is in a task that waits inside `run` |
| `ThreadPoolStuck.SticksExactly` | src/base/thread_pool.cpp:54-92 | For every limit, set of workers and set of threads that call `run`: some run comes to a state with a task and every worker asleep, if and only if the limit is positive, every worker is among the callers, and some other thread is too |
| `ThreadPoolStuck.NeverStuck` | src/base/thread_pool.cpp:54-92 | In a run of an unbounded pool, or one in which some worker never calls `run`, that never happens |
| `ThreadPoolStuck.Stick` | src/base/thread_pool.cpp:54-88 | The run, for every positive limit and every set of workers |
| `ThreadPoolStuck.IdleWithoutOthers` | src/base/thread_pool.cpp:54-88 | If only workers call `run`, no task is ever queued or run |
| `ThreadPoolRuns.TaskThatCallsRunSticks` | src/base/thread_pool.cpp:54-68 | The smallest case: one worker, and room for one task |
| `ThreadPoolRuns.StoppedRun` | src/base/thread_pool.cpp:36-47 | After `stop` nobody sleeps or goes to sleep, and the own steps of a worker plus its rank never exceed its rank at the stop, at most five |
| `ThreadPoolRuns.StoppedStep` | src/base/thread_pool.cpp:94-105 | In a stopped pool each own step of a worker lowers its rank, and no other step raises it |
| `ThreadPoolRuns.StoppedWorkersCanMove` | src/base/thread_pool.cpp:94-105 | Until it exits, a worker of a stopped pool has a step to take; only the end of its task is up to the task |
| `ThreadPoolRuns.AtMostOneMoreTask` | src/base/thread_pool.cpp:70-105 | After `stop` a worker dequeues at most one more task |
| `ThreadPoolShutdown.StoppedPoolLeaves` | src/base/thread_pool.cpp:36-105 | Once all workers have exited, the tasks dequeued since the stop are the first n of the queue at the stop, n being the smaller of its length and the number of workers then in `take`; the rest are still in the queue |
| `ThreadPoolShutdown.AtMostOneEach` | src/base/thread_pool.cpp:70-105 | In every state after a stop no more tasks have been dequeued since than workers were in `take`, and so than there are workers |
| `ThreadPoolShutdown.LeftoverStays` | src/base/thread_pool.cpp:36-105 | A stopped pool accepts nothing, and the number of tasks it will leave is the same in every later state |
| `ThreadPoolShutdown.ExitedForEver` | src/base/thread_pool.cpp:94-105 | Exited workers stay so: what is left then never runs |
| `ThreadPoolObject.ThreadPool.Run` | src/base/thread_pool.cpp:54-68 | The wait loop of `run`; accepted exactly if the pool runs at the end |
| `ThreadPoolObject.ThreadPool.Take` | src/base/thread_pool.cpp:70-88 | The wait loop of `take`; no task only from a stopped pool with an empty queue |
| `ThreadPoolObject.ThreadPool.Stop` | src/base/thread_pool.cpp:36-42 | The flag, and both notifications |
| `ThreadPoolObject.ThreadPool.WorkerTurn` | src/base/thread_pool.cpp:100-105 | One turn of a worker, its task calling `run` at will |
| `ThreadPoolObject.CallIsRun` | src/base/thread_pool.cpp:54-68 | A call of `run`, from outside or from a task, is a run |
| `ThreadPoolObject.TurnIsRun` | src/base/thread_pool.cpp:94-105 | A turn of a worker is a run: its own steps are the test, and in a running pool the call of `take`, its resumes, and the end of the task if it comes to that, after just what happens in it |
| `ThreadPoolTurns.TurnRunsFirst` | src/base/thread_pool.cpp:100-105 | In a running pool with tasks a turn in which nothing else happens dequeues exactly the first, and ends at the test |
| `ThreadPoolTurns.TurnTakesFirst` | src/base/thread_pool.cpp:100-105 | Whatever else happens, it dequeues the first |
| `ThreadPoolTurns.TurnWaits` | src/base/thread_pool.cpp:70-105 | With an empty queue the worker sleeps, and a spurious wakeup makes no difference |
| `ThreadPoolTurns.TurnFed` | src/base/thread_pool.cpp:70-105 | When a task is queued and the worker notified, it runs that task and ends at the test |
| `ThreadPoolTurns.TurnExits` | src/base/thread_pool.cpp:100 | In a stopped pool it exits, and does nothing else |
| `ThreadPoolTurns.TakeEnds` | src/base/thread_pool.cpp:70-88 | Whatever happens in its waits, a call of `take` ends with a task, with none in a stopped pool, or asleep; with a task in the queue, with the first |
| `ThreadPoolTurns.SpuriousCall` | src/base/thread_pool.cpp:59-61 | A spurious wakeup of a caller at a full queue makes no difference |
| `ThreadPoolTurns.FreedCall` | src/base/thread_pool.cpp:54-88 | When a worker takes a task and notifies the caller, the caller's task is queued |

## Left out

- Sockets, file output, rolling and gzip: thin wrappers of system calls; the logger's output is a list of records, and its flushes have no effect.
- Reading of TZif files (src/base/time_zone.cpp:89-190): the zone data is given, with local = gmt + offset for each transition and indexes in range.
- `gmtime_r` and `timegm` (src/base/time_zone.cpp:246, 260): replaced by the library's own `to_utc_time` and `from_utc_time`, as its remarks intend. The time-zone round trip is therefore about times whose local fields lie in the era of those functions.
- `tm_zone` and the abbreviation index: a pointer into a string.
- `date_t(const tm &)` (src/base/date_t.cpp:42-47): it adds 1 to `tm_year` where `from_utc_time` adds 1900, and nothing modelled here calls it.
- Integer widths: values are unbounded, except the `int` of the date arithmetic (`CivilDate.IntermediatesFitExactly`) and the 64-bit values that are printed. Sequence numbers, the eventfd counter and timestamps do not wrap.
- Timer intervals: real numbers, truncated to microseconds as `add_time` does; binary rounding is not modelled.
- Clocks: `gettimeofday` and `CLOCK_MONOTONIC` are one clock that never goes back, and starts above zero.
- Timer objects: values in an explicit heap keyed by address, so a dangling pointer is an address outside the heap; a timer whose add has not reached the loop belongs to nobody but that add.
- `std::set`, `std::lower_bound` on it, `std::vector`: sequences and sets with the same members in the same order.
- The destructor of `timer_queue_t` and the drain at process exit.
- Buffers of the logger: an allocation number and a list of messages, with `fixed_buffer` proved separately in `LogStream`; the wait of the backend ends at any time, so its timeout and its notification do not appear.
- `AsyncLoggingObject.AsyncLogging.ThreadFunc`: goes through a given list of rounds, in any of which a stop may fall, and is stopped after them at the latest, since a method must end; `AsyncLogRuns` covers runs of any length.
- `EventLoopObject.EventLoop.RemoveChannel`: the poller is the set of its registered channels here, as `PollerProofs.PollRegisters` and `EpollRegisters` justify; the back ends themselves are in `Pollers`.
- The event loop's `poll_return_time_`, iteration count and trace output; timeouts of poll are polls that report nothing.
- `channel_t::handle_event` with its callback guards and ties.
- `poll` and `epoll_wait`: what they return is a parameter under their contract (masked slots report nothing; epoll reports entries of its set, each once). Growth of the epoll event array is not modelled, and `epoll_ctl` fails only as `CtlSucceeds` says.
- `Pollers.EpollPoller.UpdateChannel`: one assertion of the source on a deleted channel is written as an assignment (src/net/poller/epoll_poller_t.cpp:79); the model assigns.
- Wait loops of `put`, `take` and `run`: a call is followed through a given number of waits and may then still be waiting, since a method must end; the run theorems have no such limit.
- `boost::circular_buffer` of the bounded queue: a sequence with a capacity.
- Empty tasks, the thread-start callback and exceptions of the thread pool; `run` on a pool without threads, which calls the task on the spot; joining in `stop`.
- Memory-model races, such as the plain `running_` of the pool: steps are sequentially consistent.
- Floating-point formatting (`format_SI`, `format_IEC`, `operator<<(double)`), and `fmt`.
- `blocking_queue`, `count_down_latch`, the loop thread pool, `string_piece`, `process_info`, `singleton` and the thread-local helpers: they would add only easy members.
