# The throttling engine of goqueuesim, modelled in Dafny

goqueuesim simulates a checkout that more clients want to enter than it can take. A queue stamps each arriving client
with a bin, an algorithm decides how many bins may proceed, a rate tracker limits how many clients pass per window, and
a driver run by many server workers moves clients from the queue into checkout while inventory lasts. This project
models that engine and proves what it promises.

* **The fairness-interval queue in Redis-Lua**, in its readable version (`FairnessInterval`, six keys) and its minified
  one (`OptFairnessInterval`, one hash, a count dictionary and two timers). Redis runs a script at a time, so a script is
  one step. `Lockstep` runs the two side by side, `FairnessRuns` and `FairnessExact` follow whole runs of clients under
  a clock, `PollAfter` compares the delays the two versions advise.
* **The driver** as a protocol of any number of workers with explicit client and inventory locks (`DriverProtocol`,
  `DriverSafety`), the same protocol with the Redis-backed queue's scripts run for real (`LuaSystem`, `MinifiedSystem`,
  `LuaRace`), and with the in-memory interval queue (`IntervalSystem`). The driver's code on real objects is proved to
  take only steps of that protocol (`ThrottleDriver`, with `Clients`, `AtomicCounters`, `LuaQueue` and `WindowTracker`),
  and `Simulation` puts all objects together: whatever its server worker, its clients and its window timer do extends
  one run of the system.
* **The in-memory queues** (`IntervalBins`, `CappedBins`, `PollDrivenBins`), each as a class and as the state machine it
  refines, with what they share in `Admission`; the capped queue fed by the tracker (`FeedbackLoop`); **the sorted-set
  queue** (`SortedSet`) and **the fairness audit** at the end of a simulation (`FairnessAudit`).

A timer key written by `SET … PX ms NX` is taken to be there up to and including its expiry time, as Redis drops a key
only once the clock has passed it. Clock readings are parameters. Cookie numbers are integers, and the cookie keys of
the different queues are one pair of keys here, since a simulation uses one queue. Arithmetic on `float64` is exact
arithmetic with the source's rounding written out.

## What the proofs found

* The minified scripts answer like the readable ones exactly when no poll comes before the first add
  (`Lockstep.LockstepRefinement`). A poll of the empty store fails in one version and opens bin 1 in the other. The
  driver's inventory guards rule such polls out, however its workers interleave (`LuaSystem.ScriptsNeverFail`).
* The two versions agree only if add and poll get different timer keys (`Lockstep.TimerKeysMustDiffer`).
  `internal/lua_config/lua_queue/params_factory.go:252` appends to a slice whose backing array it shares with the keys of
  add, which gives both the working-bin timer; with that wiring the first poll after the first add is rejected.
* Stock is refused only below zero (`internal/throttle/throttle_driver.go:44`), so one client more than there is stock
  can reach checkout, never two (`DriverSafety.InventorySafety`). From a given start every run keeps to the stock exactly
  if there are no more clients than stock, or no worker (`DriverSafety.StockKeptIff`).
* The Redis-backed queue's own guard restores the limit exactly if there is no stock at all, or enough for every client,
  or at most one worker (`LuaRace.GuardSufficesIff`): two workers can sell the last unit twice. More workers do no harm
  while whole transitions run one at a time (`LuaSystem.SerialNeverOversells`).
* The tracker likewise compares before it adds: a window passes as many clients as poll in it, up to one more than its
  nominal maximum (`WindowTracker.WindowSafety`), so it always keeps to the maximum exactly if there are no more clients
  than that (`WindowTracker.LimitKeptIff`).
* The tracker's comment says feedback is skipped while the run of low windows is at most the maximum; the code skips one
  fewer, and does as announced exactly if there are never that many low windows in a row
  (`WindowTracker.SkipsAsAnnouncedIff`).
* The capped queue's comment says its working bin moves by at most one per window. That is so exactly if the feedback is
  to be ignored or more than 20% of the rate was used (`CappedBins.AtMostOneIff`); otherwise the bin more than doubles.
  Its inner `ok` shadows the result of reading the stamp, so a client without a stamp counts as bin 0.
* A client's cookie names its state exactly as long as nobody stores a number under the state's key
  (`Clients.CookieAlwaysMirrors`), which no queue does.
* The two versions advise the same delay for every position exactly when the rate per second is whole
  (`PollAfter.SameDelayIffWholeRate`).
* The audit's worst pair exists exactly if there was an unfair event (`FairnessAudit.AggregateFairnessResults`); without
  one, the labels printed at the end are taken from no client.

## Model

| member | source | states |
|---|---|---|
| `FairnessInterval.ReadableStore.Add` | redis-lua/bins-queue/fairness_interval_driven/add.lua:11-27 | the add script as one step of the six keys: a bin is opened when the add timer is gone, an absent latest bin becomes 1, and the reply carries bin, position and delay; a missing bin fails the script |
| `FairnessInterval.ReadableStore.Poll` | redis-lua/bins-queue/fairness_interval_driven/poll.lua:12-51 | the poll script as one step, with the timer armed before an absent latest bin fails the comparison, and absent working bin read as -1 but incremented to 1; without a client bin it fails after its writes |
| `FairnessInterval.ReadableStore.Remove` | redis-lua/bins-queue/fairness_interval_driven/remove.lua:5-15 | bin count and total go down by one, absent ones from 0 |
| `FairnessInterval.ReadableStore.Clear` | redis-lua/bins-queue/fairness_interval_driven/clear.lua:5-6 | every key is gone |
| `OptFairnessInterval.MinifiedStore.Add` | redis-lua/bins-queue/minified/opt_fairness_interval/add.lua:5-27 | the packed add script as one step of hash, counts and timers, for any timer key |
| `OptFairnessInterval.MinifiedStore.Poll` | redis-lua/bins-queue/minified/opt_fairness_interval/poll.lua:5-33 | the packed poll script as one step, with its own defaults, for any timer key |
| `OptFairnessInterval.MinifiedStore.Remove` | redis-lua/bins-queue/minified/opt_fairness_interval/remove.lua:5-9 | size field and bin count go down by one |
| `Lockstep.StepAgrees` | redis-lua/bins-queue/minified/opt_fairness_interval/poll.lua:7-33 | one event on related stores: same reply, no failure, stores related again, unless it is a poll of a store never added to, which fails in one version only |
| `Lockstep.LockstepRefinement` | redis-lua/bins-queue/minified/opt_fairness_interval/poll.lua:7-33 | from empty stores and with two timer keys, all replies agree if and only if no poll precedes the first add; then no script fails and the stores hold the same data |
| `Lockstep.TimerKeysMustDiffer` | internal/lua_config/lua_queue/params_factory.go:249-256 | the versions agree on all runs without an early poll if and only if add and poll use different timer keys |
| `FairnessRuns.FairnessWidth` | redis-lua/bins-queue/fairness_interval_driven/add.lua:15-23 | in every run stamps follow arrival; the same bin means arrival within max_unfair_ms; further apart means strictly later bins |
| `FairnessRuns.StoreWellFormed` | redis-lua/bins-queue/fairness_interval_driven/poll.lua:22-39 | in every reachable store, also before the first add, a live add timer implies a latest bin, bins up to it have counts, the working bin is absent or open, no missing value is read, and no timer is set for less than max_unfair_ms |
| `FairnessRuns.JoinedPollsSucceed` | redis-lua/bins-queue/fairness_interval_driven/poll.lua:22-51 | no poll of a client that joined fails |
| `FairnessRuns.OneMovePerBin` | redis-lua/bins-queue/fairness_interval_driven/poll.lua:35-39 | in every run the working bin moved once per bin and never passes the latest |
| `FairnessRuns.Pacing` | redis-lua/bins-queue/fairness_interval_driven/poll.lua:25-39 | between any two moves of the working bin passed more than the drain time of the bins in between, and more than max_unfair_ms per bin |
| `FairnessRuns.BoundedWaiting` | redis-lua/bins-queue/fairness_interval_driven/poll.lua:22-51 | once polls by anyone found the timer expired as often as a client's bin was ahead of the working bin, that client's next poll passes |
| `FairnessRuns.NoOvertaking` | redis-lua/bins-queue/fairness_interval_driven/poll.lua:35-51 | after a client's poll passed, every later poll of it and of any client that joined before it passes |
| `FairnessRuns.Conservation` | redis-lua/bins-queue/fairness_interval_driven/remove.lua:8-13 | in every run each count is the number of that bin's clients that have not left, and the total is the sum of the counts and the number of all clients that have not left |
| `FairnessRuns.MinifiedRunsAgree` | redis-lua/bins-queue/minified/opt_fairness_interval/add.lua:5-27 | along every such run the minified scripts give the same replies and hold the same data, so the results above are theirs too |
| `FairnessInterval.HoldMsExact` | redis-lua/bins-queue/fairness_interval_driven/poll.lua:31-32 | the hold reaches ms if and only if the fairness interval does, or ms × maxPerWindow is at most count × window |
| `FairnessExact.TimerRuns` | redis-lua/bins-queue/fairness_interval_driven/poll.lua:26-36 | in every run a poll that finds the timer over arms it for exactly the longer of the fairness interval and the time to drain the clients waiting in the working bin; no other act touches it |
| `FairnessExact.MoveRecorded` | redis-lua/bins-queue/fairness_interval_driven/poll.lua:35-39 | the working bin moves exactly at such a poll while it is behind, and each move is noted with the clients then waiting in the old bin |
| `FairnessExact.DrainPacing` | redis-lua/bins-queue/fairness_interval_driven/poll.lua:30-39 | between any two moves, time × maxPerWindow exceeds the clients that waited in the bins left × window |
| `FairnessExact.PassesIff` | redis-lua/bins-queue/fairness_interval_driven/poll.lua:43-51 | in every run a client's poll passes if and only if the working bin has moved as often as the client's bin says |
| `FairnessExact.BinsExact` | redis-lua/bins-queue/fairness_interval_driven/add.lua:18-20 | bins are numbered in the order they are opened, and a client shares a bin with its first client if and only if it joined at most max_unfair_ms after it |
| `FairnessExact.JoinIsAnswered` | redis-lua/bins-queue/fairness_interval_driven/add.lua:22-27 | a client that joins is answered its bin and the number of clients then in the queue |
| `PollAfter.MinifiedNeverEarlier` | internal/lua_config/lua_queue/postprocessors/minimalist_postprocessor.go:28-29 | for a positive whole rate the minified delay is at least the readable one |
| `PollAfter.SameDelayIffWholeRate` | internal/lua_config/lua_queue/params_factory.go:244-246 | the delays agree in every position if and only if the window divides the rate evenly |
| `PollAfter.DelaysFollowPosition` | redis-lua/bins-queue/fairness_interval_driven/add.lua:25 | both delays are monotone in the position |
| `PollAfter.DelaysExact` | redis-lua/bins-queue/fairness_interval_driven/add.lua:25 | each delay is the largest whole number of milliseconds in which everyone up to the position is drained at the version's rate, and the whole rate the largest number of checkouts per second within the rate |
| `WindowTracker.FixedWindowTracker.ShouldProceed` | internal/throttle/tracker/impl/fixed_window_tracker.go:69-91 | the polling client is recorded, and passes if at most max clients passed before in this window |
| `WindowTracker.FixedWindowTracker.EndWindow` | internal/throttle/tracker/impl/fixed_window_tracker.go:108-131 | the window closes, its two utilizations are reported, and the feedback is to be ignored exactly when the run of low windows is under the maximum |
| `WindowTracker.WindowSafety` | internal/throttle/tracker/impl/fixed_window_tracker.go:69-91 | in every run a request is answered yes if and only if at most max distinct clients were answered yes in its window before; so of the clients asking in a window exactly Min(their number, max + 1) are let through, and these are the recorded passes; at most (cur + 1)(max + 1) have passed in all |
| `WindowTracker.RecordsAreAnswers` | internal/throttle/tracker/impl/fixed_window_tracker.go:69-117 | the window number is that of the windows ended, and the recorded polls and passes are the clients that asked and were let through |
| `WindowTracker.ClosedWindowsStay` | internal/throttle/tracker/impl/fixed_window_tracker.go:76-117 | windows only go forward, and a closed window never changes |
| `WindowTracker.LimitKeptIff` | internal/throttle/tracker/impl/fixed_window_tracker.go:85 | in every window of every run at most max clients are answered yes if and only if there are at most max clients |
| `WindowTracker.SkipsAsAnnouncedIff` | internal/throttle/tracker/impl/fixed_window_tracker.go:119-131 | feedback is ignored for runs of 1 to maxSkipped low windows, as the comment says, in every window if and only if there are never maxSkipped low windows in a row |
| `WindowTracker.SkipsAreBounded` | internal/throttle/tracker/impl/fixed_window_tracker.go:119-131 | of any maxSkipped feedbacks in a row one is heeded |
| `WindowTracker.SkipsAreAttained` | internal/throttle/tracker/impl/fixed_window_tracker.go:119-131 | when all windows are low, exactly the first maxSkipped - 1 feedbacks are ignored |
| `Clients.BaseClient.SetThrottleCookieVal` | internal/client/impl/base_client.go:78-87 | refused without the lock, otherwise one cookie entry changes |
| `Clients.BaseClient.GetThrottleCookieNumber` | internal/client/impl/base_client.go:89-99 | a number is found exactly with the lock and the entry |
| `Clients.BaseClient.AdvisePollAfter` | internal/client/impl/base_client.go:156-162 | refused without the lock |
| `Clients.CookieAlwaysMirrors` | internal/client/impl/base_client.go:123-176 | over every sequence of changes by server, queue and client: past initial the cookie names the state if and only if no number was stored over that entry since the last change of state |
| `Clients.TimesNoted` | internal/client/impl/base_client.go:123-150 | the entry and exit times are those of the last queueing and of the last entry into checkout, the checkout flag says whether there was one, and the state is that of the last change |
| `Clients.BaseClient.MarkQueued` | internal/client/impl/base_client.go:123-131 | refused without the lock; otherwise state, entry time and cookie change together |
| `Clients.BaseClient.MarkInCheckout` | internal/client/impl/base_client.go:141-150 | the same for checkout, which also sets exit time and the checkout flag |
| `Clients.BaseClient.MarkExited` | internal/client/impl/base_client.go:168-176 | the same for leaving |
| `AtomicCounters.AtomicCounter.AtomicAdd` | internal/common/AtomicCounter.go:16-23 | under the lock a 32-bit addition with wrap-around, without it nothing and -1 |
| `AtomicCounters.Wrap32Exact` | internal/common/AtomicCounter.go:16-23 | the wrapped sum is the one 32-bit number congruent to it |
| `AtomicCounters.AtomicCounter.AtomicRead` | internal/common/AtomicCounter.go:25-30 | the count under the lock, -1 without it |
| `LuaQueue.LuaDrivenQueue.Add` | internal/throttle/queue/impl/redis_queue/lua_driven_queue.go:45-67 | skipped without stock; otherwise the add script's step, with bin and position kept in the cookie and the delay advised |
| `LuaQueue.LuaDrivenQueue.Remove` | internal/throttle/queue/impl/redis_queue/lua_driven_queue.go:69-94 | skipped below zero; otherwise the remove script's step for the bin in the cookie, failing without one |
| `LuaQueue.LuaDrivenQueue.IsCandidateToProceed` | internal/throttle/queue/impl/redis_queue/lua_driven_queue.go:96-121 | refused without stock; otherwise the poll script's step and answer for the bin in the cookie |
| `LuaQueue.LuaDrivenQueue.Clear` | internal/throttle/queue/impl/redis_queue/lua_driven_queue.go:167-193 | the store is emptied and the poll count reset |
| `LuaQueue.MinimalistPostprocessor.PostprocessAdd` | internal/lua_config/lua_queue/postprocessors/minimalist_postprocessor.go:24-33 | bin and position go into the cookie, and the delay from the whole rate is advised; nothing happens without the lock |
| `DriverProtocol.NextKeeps` | internal/throttle/throttle_driver.go:25-70 | every step of any worker, client or window keeps the protocol's invariant: lock ownership, what each program point relies on, the clients' bookkeeping, and reached + stock = N up to the client being counted |
| `DriverSafety.InventorySafety` | internal/throttle/throttle_driver.go:41-60 | in every interleaving of any number of workers: reached + counter = N outside the critical section, the counter is at least -1, at most N + 1 clients reach checkout, and at most (cur + 1)(max + 1) |
| `DriverSafety.StockKeptIff` | internal/throttle/throttle_driver.go:42-47 | from a given start, no run lets more clients into checkout than there is stock if and only if there are no more clients than stock or no worker; otherwise a run with one more is built |
| `DriverSafety.QueueCallsPaired` | internal/throttle/throttle_driver.go:28-55 | Add is called at most once per client, Remove at most once and only after Add and checkout, and no two workers hold one client |
| `DriverSafety.OnlyForward` | internal/client/throttle_state.go:25-30 | in every run no client's state moves back in initial < queued < inCheckout < exited, and stock is never put back |
| `DriverSafety.CancelledIffSoldOut` | internal/throttle/throttle_driver.go:56-59 | in every interleaving the run is cancelled only with stock sold and none left, and whenever all workers are free it is cancelled if and only if that is so |
| `DriverSafety.CallsEnd` | internal/throttle/throttle_driver.go:25-70 | every call ends: a worker is free again after at most 13 steps of its own, however others interleave |
| `LuaSystem.ScriptsNeverFail` | internal/throttle/queue/impl/redis_queue/lua_driven_queue.go:195-207 | in every interleaving, the inventory guards keep every script from failing, so the queue never panics on one |
| `LuaSystem.DriverConservation` | internal/throttle/queue/impl/redis_queue/lua_driven_queue.go:45-94 | in every state of every interleaving the total is the sum of all counts; until cleared and while no stock is owed each count is the number of that bin's clients not removed, and the total that of all clients added and not removed; once cleared no bin is open and no count is positive |
| `LuaSystem.TicketsInOrder` | internal/throttle/queue/impl/redis_queue/lua_driven_queue.go:45-67 | under the driver, a client added earlier has no later bin and shares it only within the fairness interval |
| `LuaSystem.SystemNoOvertaking` | internal/throttle/queue/impl/redis_queue/lua_driven_queue.go:96-121 | once the queue let a client pass, it lets pass every later request of every client added no later, while stock is left |
| `LuaSystem.SystemPassesIff` | internal/throttle/queue/impl/redis_queue/lua_driven_queue.go:96-121 | a worker asking the queue goes on to the tracker if and only if stock is left and the working bin, with this poll, has moved as often as the client's bin says |
| `LuaSystem.ClearedIffSoldOut` | internal/throttle/queue/impl/redis_queue/lua_driven_queue.go:167-193 | the store is cleared only with stock sold and none left, and whenever all workers are free it is cleared if and only if that is so |
| `MinifiedSystem.MinifiedBehindDriver` | redis-lua/bins-queue/minified/opt_fairness_interval/clear.lua:5-7 | in every interleaving, before and after the store is cleared and with late removes, the minified scripts give the same replies, never fail, and hold the same data |
| `LuaSystem.SerialNeverOversells` | internal/throttle/queue/impl/redis_queue/lua_driven_queue.go:96-103 | with whole transitions one at a time, at most N clients reach checkout |
| `LuaSystem.DriverRunOf` | internal/throttle/throttle_driver.go:25-70 | the system with the Redis-backed queue is a run of the driver protocol, so its theorems apply |
| `LuaRace.GuardSufficesIff` | internal/throttle/queue/impl/redis_queue/lua_driven_queue.go:96-103 | with the queue's guard and any interleaving, no run from a given start lets more clients into checkout than there is stock if and only if there is no stock, or stock for every client, or at most one worker |
| `ThrottleDriver.CheckoutThrottleDriver.TryThrottleStateTransition` | internal/throttle/throttle_driver.go:25-70 | the call on real client, counter, tracker, queue and store takes only steps of the protocol, ends ready to respond, reports whether the state changed, keeps the cookie naming the state, and no script fails |
| `ThrottleDriver.CheckoutThrottleDriver.TakeInventory` | internal/throttle/throttle_driver.go:42-54 | the critical section as protocol steps: gives up below zero, otherwise marks the client and counts it off |
| `ThrottleDriver.CheckoutThrottleDriver.LeaveQueue` | internal/throttle/throttle_driver.go:55-59 | remove, and clear and cancel once nothing is left, as protocol steps |
| `ThrottleDriver.PathExtendsRun` | internal/throttle/throttle_driver.go:25-70 | the steps of a call made after any run make a longer run, so what holds in every run holds after the call |
| `Simulation.SimulationDriver.ServeRequest` | internal/simulator/simulator.go:62-73 | lock, call, response and unlock extend the run of the system, and every client's object, cookie included, is again where the run says |
| `Simulation.SimulationDriver.RunServerWorker` | internal/simulator/simulator.go:59-76 | after any sequence of requests no more clients hit checkout than there was stock |
| `Simulation.SimulationDriver.ClientExits` | internal/client/impl/base_client.go:168-176 | a client leaving by itself extends the run, and its cookie keeps naming its state |
| `Simulation.SimulationDriver.EndWindow` | internal/throttle/tracker/impl/fixed_window_tracker.go:108-117 | the window timer extends the run |
| `Simulation.SimulationDriver.NeverOversold` | internal/throttle/throttle_driver.go:41-60 | after any calls in any order, at most as many clients hit checkout as there was stock, and every client's cookie names its state |
| `Simulation.SimulationDriver.CancelledIffSoldOut` | internal/throttle/throttle_driver.go:56-59 | after any calls the driver is cancelled if and only if some client hit checkout and the counter is at most 0 |
| `Simulation.SimulationDriver.Make` | cmd/goqueuesim/config.go:215-240 | the objects of a new simulation stand where a run of the system begins |
| `IntervalBins.IntervalBinsQueue.Add` | internal/throttle/queue/impl/interval_bins_queue.go:41-60 | the arrival step: the client is stamped with the latest bin, counted, and told when to poll |
| `IntervalBins.IntervalBinsQueue.Remove` | internal/throttle/queue/impl/interval_bins_queue.go:62-70 | the departure step: a stamped client is counted off its bin and the total, another is not |
| `IntervalBins.IntervalBinsQueue.IsCandidateToProceed` | internal/throttle/queue/impl/interval_bins_queue.go:76-85 | exactly the stamps up to the considered bin proceed; the bin just behind is told the next scheduled move |
| `IntervalBins.IntervalBinsQueue.OpenNextBin` | internal/throttle/queue/impl/interval_bins_queue.go:104-106 | the latest bin moves by one |
| `IntervalBins.IntervalBinsQueue.TryAdvance` | internal/throttle/queue/impl/interval_bins_queue.go:114-138 | one round of the pacing loop: no move at the latest bin or before the bin's share of the rate has passed, otherwise one move; and how long it sleeps |
| `IntervalBins.IntervalBinsQueue.Clear` | internal/throttle/queue/impl/interval_bins_queue.go:141-146 | everything starts over except the time of the last move |
| `IntervalBins.NoOvertaking` | internal/throttle/queue/impl/interval_bins_queue.go:76-85 | over every sequence of operations between two Clears: once arrival j may proceed, every arrival i <= j may, from then on |
| `IntervalBins.MovesPaced` | internal/throttle/queue/impl/interval_bins_queue.go:122-132 | between any two moves passed at least the hold of every bin in between, and at least maxUnfair per bin |
| `IntervalBins.PaceInRuns` | internal/throttle/queue/impl/interval_bins_queue.go:111-139 | in every run moves are so paced, considered bin × maxUnfair is at most the time from the base to the last move, the considered bin never passes the latest, and the total is the sum of the counts |
| `IntervalBins.RoundExact` | internal/throttle/queue/impl/interval_bins_queue.go:122-132 | with a later bin open a round moves on if and only if the fairness interval and every whole millisecond of draining the considered bin are over, and otherwise plans the move for the first nanosecond at which they are |
| `IntervalBins.CountsInRuns` | internal/throttle/queue/impl/interval_bins_queue.go:41-70 | in every run the latest bin is the number of bins opened since the last Clear, each count that of the arrivals to its bin less the departures, and arrivals are stamped with the bin last opened |
| `IntervalSystem.Conservation` | internal/throttle/queue/impl/interval_bins_queue.go:41-70 | behind the driver, in every interleaving: until cleared each count is the number of that bin's clients added and not removed, and the total that of all of them; it is not cleared while stock is left; the total is the sum of the counts throughout |
| `IntervalSystem.PaceExact` | internal/throttle/queue/impl/interval_bins_queue.go:111-139 | behind the driver, until cleared: a round moves on if and only if the fairness interval is over and the clients added, not removed and stamped with the considered bin had the time to drain; the move notes their number |
| `IntervalSystem.MovesRecorded` | internal/throttle/queue/impl/interval_bins_queue.go:130-133 | every move on record is such a round, with its time and that number of clients |
| `IntervalSystem.MovesDrained` | internal/throttle/queue/impl/interval_bins_queue.go:122-132 | between two moves the fairness interval passed and the clients noted had the time to drain |
| `IntervalSystem.PassesIff` | internal/throttle/queue/impl/interval_bins_queue.go:76-85 | a worker asking the queue goes on to the tracker if and only if the client was stamped and the pacing routine has moved as often as the stamp says |
| `IntervalSystem.ClearedIffSoldOut` | internal/throttle/queue/impl/interval_bins_queue.go:141-146 | the queue is cleared only with stock sold and none left, and whenever all workers are free it is cleared if and only if that is so |
| `IntervalSystem.SiteNoOvertaking` | internal/throttle/queue/impl/interval_bins_queue.go:76-85 | behind the driver, until cleared: once a client may proceed, it and every client added no later may, from then on |
| `CappedBins.CappedBinsQueue.Add` | internal/throttle/queue/impl/capped_bins_queue.go:28-47 | the k-th distinct client since Clear is stamped (k - 1) / binSize + 1, and the bins hold exactly the clients arithmetic puts there, all but the last full |
| `CappedBins.CappedBinsQueue.Remove` | internal/throttle/queue/impl/capped_bins_queue.go:49-55 | total down, dequeues of the working bin up |
| `CappedBins.CappedBinsQueue.GetUserBin` | internal/throttle/queue/impl/capped_bins_queue.go:110-118 | the stamp or 0, and never a success flag |
| `CappedBins.CappedBinsQueue.IsCandidateToProceed` | internal/throttle/queue/impl/capped_bins_queue.go:61-66 | exactly the first workingBin × binSize arrivals proceed, and a client without a stamp may |
| `CappedBins.CappedBinsQueue.ReceiveTrackerFeedback` | internal/throttle/queue/impl/capped_bins_queue.go:69-100 | the working bin moves as the utilizations say, and not at all on ignored feedback; it stays what the feedbacks since the last Clear made of it |
| `CappedBins.CappedBinsQueue.Clear` | internal/throttle/queue/impl/capped_bins_queue.go:102-108 | bins, dequeues, counters and working bin start over |
| `CappedBins.NoOvertaking` | internal/throttle/queue/impl/capped_bins_queue.go:61-66 | over every sequence of operations between two Clears: once arrival j may proceed, every arrival i <= j may, from then on |
| `CappedBins.AdmittedPrefix` | internal/throttle/queue/impl/capped_bins_queue.go:61-66 | being stamped up to bin w is being among the first w × binSize arrivals |
| `CappedBins.AdmittedCount` | internal/throttle/queue/impl/capped_bins_queue.go:76 | bins 1 to w admit exactly w × binSize of the arrivals, or all if fewer |
| `CappedBins.AtMostOneIff` | internal/throttle/queue/impl/capped_bins_queue.go:68-100 | the working bin never moves back, and moves by at most one if and only if the feedback is to be ignored or the checkout utilization is above 0.2 |
| `CappedBins.FeedbackMoves` | internal/throttle/queue/impl/capped_bins_queue.go:69-100 | in every run heeded feedback moves the working bin by its double and two, by one, or, above 90%, by one if and only if more than half as many clients as a bin holds were removed while it was the working bin |
| `CappedBins.OnlyFeedbackMoves` | internal/throttle/queue/impl/capped_bins_queue.go:102-108 | nothing else moves it but Clear, which sets it to 1 |
| `CappedBins.TalliesInRuns` | internal/throttle/queue/impl/capped_bins_queue.go:28-55 | the log is that of the arrivals since the last Clear, the size theirs less the removals, and the dequeues those while each bin was the working bin |
| `CappedBins.GrowthInRuns` | internal/throttle/queue/impl/capped_bins_queue.go:88-98 | in every run the working bin is at least 1 and at most 3·2^n - 2 after n feedbacks heeded since the last Clear, and exactly that while checkouts are at most 20% of the rate |
| `FeedbackLoop.Progress` | internal/throttle/tracker/impl/fixed_window_tracker.go:119-131 | in every run of tracker and queue: if at most 90% of the rate was used in all windows since the last Clear, after (b - 1) × maxSkipped of them the first b × binSize arrivals may proceed |
| `FeedbackLoop.EndWindowAndNotify` | internal/throttle/throttle_driver.go:73-88 | the monitor's round on the tracker and the queue's receipt of its feedback are one step of those runs |
| `PollDrivenBins.PollDrivenCappedBinsQueue.Add` | internal/throttle/queue/impl/polldriven_capped_bins_queue.go:67-86 | the k-th client since Clear gets bin k / (binSize + 1) |
| `PollDrivenBins.PollDrivenCappedBinsQueue.Remove` | internal/throttle/queue/impl/polldriven_capped_bins_queue.go:88-91 | the client count goes down by one |
| `PollDrivenBins.PollDrivenCappedBinsQueue.IsCandidateToProceed` | internal/throttle/queue/impl/polldriven_capped_bins_queue.go:93-103 | exactly the clients numbered below (workingBin + 1)(binSize + 1) proceed, and one without a stamp; a poll let through is counted in its second |
| `PollDrivenBins.PollDrivenCappedBinsQueue.UpdatePollingUtil` | internal/throttle/queue/impl/polldriven_capped_bins_queue.go:128-158 | the rate is smoothed with the tracker's count, and the working bin moves only once per interval and at or below the target rate |
| `PollDrivenBins.PollDrivenCappedBinsQueue.Clear` | internal/throttle/queue/impl/polldriven_capped_bins_queue.go:118-122 | bins start over, the client count and the time of the last move do not |
| `PollDrivenBins.PollsPerSecondTracker.CountPollingEvent` | internal/throttle/queue/impl/polldriven_capped_bins_queue.go:31-43 | the two counts stay those of the latest second with an event and of the one before it with any |
| `PollDrivenBins.RunIsSecond` | internal/throttle/queue/impl/polldriven_capped_bins_queue.go:27-43 | what is counted is exactly the events of one second, when the clock does not go back |
| `PollDrivenBins.NoOvertaking` | internal/throttle/queue/impl/polldriven_capped_bins_queue.go:93-103 | over every sequence of operations between two Clears: once the client numbered l may proceed, every client numbered k <= l may, from then on |
| `PollDrivenBins.PollDrivenRuns` | internal/throttle/queue/impl/polldriven_capped_bins_queue.go:67-80 | in every run bin and position are the quotient and remainder of the adds since Clear by binSize + 1, the working bin is not negative, and any two of its moves are at least their number of intervals apart |
| `PollDrivenBins.RoundExact` | internal/throttle/queue/impl/polldriven_capped_bins_queue.go:128-158 | in every run a round moves the smoothed rate by the weight's share of the way to the latest, and the working bin by one if and only if the interval is over and the rate at most its target |
| `PollDrivenBins.OnlyRoundsMove` | internal/throttle/queue/impl/polldriven_capped_bins_queue.go:118-122 | nothing else moves rate or working bin but Clear, which sets the bin to 0 |
| `PollDrivenBins.AddsInRuns` | internal/throttle/queue/impl/polldriven_capped_bins_queue.go:67-91 | the counter is that of the adds since the last Clear, and the client count that of all adds less all removals |
| `PollDrivenBins.BinRange` | internal/throttle/queue/impl/polldriven_capped_bins_queue.go:72-77 | bin b holds exactly the clients numbered b(binSize + 1) to b(binSize + 1) + binSize |
| `PollDrivenBins.BinFill` | internal/throttle/queue/impl/polldriven_capped_bins_queue.go:72-77 | a full bin 0 holds binSize clients, every later full bin binSize + 1 |
| `SortedSet.SortedSetQueue.Add` | internal/throttle/queue/impl/redis_queue/sorted_set_queue.go:23-31 | a new member is entered with its entry time, one already there keeps its own |
| `SortedSet.SortedSetQueue.Remove` | internal/throttle/queue/impl/redis_queue/sorted_set_queue.go:33-40 | the member is gone, the others stay |
| `SortedSet.SortedSetQueue.IsCandidateToProceed` | internal/throttle/queue/impl/redis_queue/sorted_set_queue.go:48-57 | members ranked below the window size proceed; asking about another client is the error the source panics on |
| `SortedSet.SortedSetQueue.ReceiveTrackerFeedback` | internal/throttle/queue/impl/redis_queue/sorted_set_queue.go:60-104 | the window is resized as specified and stays at least 1, so the reset never happens |
| `SortedSet.SortedSetQueue.Clear` | internal/throttle/queue/impl/redis_queue/sorted_set_queue.go:106-112 | the set is emptied |
| `SortedSet.ResizedBounds` | internal/throttle/queue/impl/redis_queue/sorted_set_queue.go:82-99 | from at least 1: a shrink keeps at least half rounded up, an expansion ends below the queue size, between 1.0 and 1.2 nothing changes |
| `SortedSet.ResizedExact` | internal/throttle/queue/impl/redis_queue/sorted_set_queue.go:82-99 | the window grows by the shortfall to 1.2, rounded up, if the queue is longer than that, and shrinks by the excess, rounded up, or by half, rounded down, whichever is less |
| `SortedSet.AdmittedIsPrefix` | internal/throttle/queue/impl/redis_queue/sorted_set_queue.go:48-57 | whoever precedes an admitted member in entry order is admitted |
| `SortedSet.EarlierIsAdmitted` | internal/throttle/queue/impl/redis_queue/sorted_set_queue.go:23-57 | with a member every member that entered earlier is admitted, and of those entered at the same time every one with a lesser name |
| `SortedSet.NameLessIff` | internal/throttle/queue/impl/redis_queue/sorted_set_queue.go:48-57 | names are ordered by their first difference, and a name comes after its beginnings |
| `SortedSet.AdmittedCount` | internal/throttle/queue/impl/redis_queue/sorted_set_queue.go:48-57 | exactly the window size are admitted, or all members if fewer |
| `FairnessAudit.AuditRow` | internal/simulator/simulator.go:123-144 | one client's row of the audit adds exactly its events, and finds the largest gap in it |
| `FairnessAudit.CountEvent` | internal/simulator/simulator.go:128-138 | one event is added to the count, the sum, the sets and the counts by label |
| `FairnessAudit.AggregateFairnessResults` | internal/simulator/simulator.go:101-160 | events, sum and maximum are those of exactly the pairs in inverse order, the worst pair attains the maximum and exists if and only if there is an event, and counts by label are the numbers of distinct clients and add up to all of them |
| `FairnessAudit.EventsExact` | internal/simulator/simulator.go:125-137 | an event is a pair with the first arriving earlier and leaving later, and its gap the time between their arrivals |
| `FairnessAudit.WorstExact` | internal/simulator/simulator.go:138-153 | the maximum bounds the time between arrivals in every event, and the worst pair is one that attains it |
| `FairnessAudit.IdsExact` | internal/simulator/simulator.go:135-136 | the cheated are the first and the gaining the second clients of events |
| `FairnessAudit.LabelsExact` | internal/simulator/simulator.go:129-134 | each label's count is the number of those clients that bear it, and all counts add up to all of them |
| `FairnessAudit.ReachedExact` | internal/simulator/simulator.go:102-107 | exactly the clients that reached checkout are audited |

## Left out

- Redis networking, script loading, result tuples, `size.lua`, the noop scripts, and the Lua directories `params_factory.go` names without showing their scripts.
- The key lists built in `params_factory.go`; timer keys are parameters of the minified scripts instead.
- Metrics, logging, printing, configuration files, random order and the command line, including the average and the labels printed after the audit.
- Channels, sleeps, jitter and the polling routines of the client variants: in the protocol a client leaves at any time it is not locked, and a worker takes a request at any time; whether a late response panics is not modelled.
- Rounding of `float64`, division by a rate or window of zero, and integer overflow other than that of the inventory counter.
- The number format of cookie values: a number written to a cookie is read back as itself.
- Dropped feedback: the progress of the capped queue is stated for feedback that is all delivered.
- Calls of one queue that overlap: each call of an in-memory queue is one step, also where the source takes no mutex.
- DriverSafety.QueueCallsPaired: speaks of the driver's calls; the Redis-backed queue skips the script of a call when the counter is too low, which LuaSystem models.
- LuaSystem.DriverConservation: while the counter is below zero a bin's count may still include clients whose remove was skipped.
- LuaSystem.ScriptsNeverFail: a script that failed would stop the process; the system only records that.
- ThrottleDriver.CheckoutThrottleDriver.TryThrottleStateTransition: one clock reading serves the whole call, and nothing interrupts it; interruptions are the protocol's. Its parts are methods of their own here, cut where the protocol has its steps.
- Simulation.SimulationDriver.RunServerWorker: serves a given sequence of requests, one whole call at a time; overlapping workers are the protocol's. Responses are not built.
- IntervalBins.IntervalBinsQueue.TryAdvance: the routine's rounds and the bin timer's firings are calls made in any order; their sleeping is not modelled.
- CappedBins.CappedBinsQueue.Add: asks for a client not added since the last Clear, as the driver adds each client once.
- SortedSet.SortedSetQueue.Add: members are names and entry times are whole numbers, so clients whose times a `float64` cannot tell apart are ordered by time here.
