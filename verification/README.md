# A model of svc-rs

svc-rs is a process supervisor: it scans a directory for services, starts each one once its hard dependencies
run, restarts what crashes with a backoff and a circuit breaker, stops what has lost a dependency, logs output,
obeys a control socket and shuts everything down in order. This project models it in Dafny and proves what its
steps keep, what its algorithms compute and what holds over whole runs.

## How it is built

* `Types`, `Machine`: the service table and the supervisor as a state machine. A `World` is the table together
  with the unreaped children, the open service descriptors, the clock and the signals sent. An `Event` is one
  indivisible change; `Legal` says when the code makes it and which kernel answers are possible, `Step` what it
  does, `LegalRun` and `Run` chain steps. Everything else about the kernel is arbitrary.
* `KernelAnswers`: which outcomes follow from the answers of the kernel. Events carry the answers they rest on, and
  a launch or a reaped exit is legal only with answers that make its outcome.
* `Ledger`, `Restart`, `Propagation`, `StopOrder`, `Reaping`, `Passes`, `BringUp`, `Closure`, `Unasked`, `Causes`:
  theorems about that machine, over every step or every run; the last two are told from the events alone.
  `Scenarios`: runs from the start of the program that reach what the theorems allow for; `LogScenario`: one whose
  log then outgrows every bound.
* `FileSystem`, `Logs`, `Drains`, `Reading`: log files, what runs keep of them, and the steps of draining.
* `Kernels`: a kernel object whose methods answer arbitrarily within what a kernel guarantees, and which keeps
  its answers, so that contracts can say how the outcome follows from them: at every point of the program they are
  the answers that the events of the history carry. The preconditions are obligations: only unreaped children are
  signalled, only open descriptors are closed. `Guards`: owned descriptors.
* `Supervision` (class `Supervisor` over an array of services, with the arithmetic of `Launching`), `Draining`,
  `Control`, `Scan`, `Shutdown`, `MainLoop`: the program itself, with its loops, in-place updates and failure
  paths. Every method extends a ghost history by exactly the events it names, and the history is a legal run, so
  what is proved of all legal runs holds of the program. In these contracts `Did(w, h, es)` says that since the
  world was `w` and the history `h`, exactly the steps `es` have been taken; it also says that the ledgers and the
  log invariant hold. `Startup`, `Removal`, `LoggerSignals`: theorems about the turns of the program, about
  removal, and about what a shutdown sends to loggers. `Orders`: what each line of the control protocol does, from
  its text to the table and the signals.
* `Registry`: directory scans as a function on tables. `Depends`, `Environments`, `Commands`, `Numbers`, `Paths`,
  `LogFiles`, `TextLines`: parsers, bounded buffers and paths, each loop proved against a plain specification,
  with round trips.

## Where the code and its documentation differ

The model follows the code.

* Shutdown stops dependencies before their dependents; README.md:96 says the reverse.
* A dependent of a service stopped by an operator can stay up, because `stop` propagates before it marks its
  target and a requested exit does not propagate (`Closure.StopClosedIff` says exactly when); README.md:95 says
  that all dependents are stopped.
* The breaker counts consecutive runs of at most 60 seconds, not restarts in a sliding window, and the 60 second
  delay is unreachable (`Restart.BreakerCountsConsecutiveRuns`, `Restart.SpacedExit`).
* Rotation renames a path without the `/log` component, so the log file is neither archived nor emptied and no
  bound on its size holds (`LogFiles.RotationMissesLog`, `Draining.WriteLog`, `Drains.LogUnbounded`).
* The recorded length of a log is its size unless the directory is so long that both streams of the service share
  one log path (`Logs.SharedLengthIff`).
* A scan clears `stopping`, so a stop holds only if the exit is reaped while the mark is still set
  (`Restart.RestartLatchesIff`, `Registry.ScanKeeps`); a scan in between undoes it (`Scenarios.ScanUndoesStop`).
* `restart` only stops: without such a scan no new start follows (`Restart.RestartHalts`).
* `log_pid` may be overwritten while an old logger lives; the old logger is then a child held in no slot, and the
  shutdown does not signal it (`Ledger.LaunchOrphansLoggerIff`, `Shutdown.OrphanUnsignalled`).
* A lost logger, too, can leave dependents up, since what it stops is stopped after the propagation
  (`Reaping.ReapPhaseClosed` says exactly when).
* Names longer than 63 bytes can make two directories one service name (`Registry.ScanUniqueIff`).

## Model

| member | source | states |
|---|---|---|
| Ledger.FreshInv | src/main.rs:44 | the zeroed table the program starts with satisfies the life cycle, both ledgers and the registry invariant |
| Ledger.StepKeeps | src/main.rs:78-325 | every legal step (reap, clock, scan, start, command, drain, kill, final sweep) keeps the life cycle of each slot, the process ledger, the descriptor ledger, one active slot per directory and no pipe beside a logger |
| Ledger.RunKeeps | src/main.rs:78-325 | the same at every point of every run, in whatever order steps and kernel answers come |
| Ledger.NoPipeBesideLogger | src/service.rs:66-268 | in every run from the start of the program, a service that has a logger has no pipe to be read, so that every byte read is one that is to be logged |
| Ledger.SendsReachChildren | src/service.rs:354-359 | a signal sent by a step goes to a process that some slot holds, which is a child that has not been waited for |
| Ledger.SignalsReachChildren | src/service.rs:335-435 | in every run, at every step, no signal goes to a recycled process number |
| Ledger.ReapClearsOne | src/main.rs:249-265 | a reaped child was held by at most one field of one slot; exactly that field is cleared |
| Ledger.LaunchOrphansLoggerIff | src/service.rs:113-117 | a launch while an old logger of the service lives: the old logger is still a child afterwards, and it is held by no slot if and only if a new logger was started, which needs `has_log` |
| Ledger.UnheldUnsignalled | src/service.rs:407-434 | a child held by no slot is never signalled, in any run, and no slot comes to hold it |
| Scenarios.LoggerOrphaned | src/main.rs:265-315 | a run from the start of the program that leaves a logger alive and held by no slot: the main process ends unasked, and the relaunch starts another logger |
| Restart.RunAccounted | src/main.rs:289-315 | in every run starts, counted exits, uncounted exits, `restarts`, `pid` and `restart_at` of a slot stay linked |
| Restart.StartsBounded | src/main.rs:289-315 | the starts since a registration or since the last counted exit of a run longer than 60 s number at most 6 plus the `start` and `up` commands in that stretch |
| Restart.BreakerCountsConsecutiveRuns | src/main.rs:295-303 | a counted exit fails the service for good if and only if its run was at most 60 s long and at least 5 counted exits came before it in the stretch, however old they are |
| Restart.ExitLatchesIff | src/main.rs:289-303 | `restart_at` becomes `i64::MAX` if and only if `stopping` or `once` was still set when the exit was reaped or the breaker tripped |
| Restart.LatchedExit | src/main.rs:289-303 | after such an exit no start happens, in any run, before a `start` or `up` command or a new registration |
| Restart.RestartLatchesIff | src/ctrl.rs:211-221 | `stop`, `restart` or `down` of a live service: unless it is told to stop once more before its exit, the exit latches the slot if and only if no scan has found the service and no `start` or `up` has come in between, or it ran once, or the breaker tripped |
| Restart.RestartHalts | src/ctrl.rs:211-221 | after such a command, `restart` included, no start comes in any run before a `start` or `up`, a new registration, or a scan that finds the service while its process lives |
| Scenarios.ScanUndoesStop | src/scan.rs:132 | a run from the start of the program: `stop`, a scan, the exit, and two seconds later a new start that nobody has asked for |
| Restart.SpacedExit | src/main.rs:304-314 | after any other exit at `t` the next start is set for exactly `t + 2`, or `t + 10` after the fifth in a row, and none comes before; the 60 s delay is never used |
| Restart.TriedAgain | src/service.rs:253-267 | a failed launch is tried again after exactly 2 s and a deferred one after exactly 1 s, and not before |
| Propagation.PathStrands | src/service.rs:339-357 | while the head of a path of lost dependencies has not been stopped, some service on it still meets the stop condition |
| Propagation.NobodyStranded | src/service.rs:335-365 | when no service meets the stop condition any more, the services stopped are exactly those that reach a missing or non-running service along hard dependencies, and the running set is closed |
| Propagation.DoomedIsLeast | src/service.rs:335-365 | those services are the least set closed under losing a hard dependency |
| Supervision.Supervisor.StopPass | src/service.rs:339-363 | one pass stops only such services, reports whether it stopped any, and if not leaves none that meets the stop condition |
| Supervision.Supervisor.StopTransitiveDeps | src/service.rs:335-365 | stops exactly that set whatever the slot order, one SIGTERM each and none elsewhere, within one pass more than there are victims |
| Supervision.Supervisor.AccountExit | src/main.rs:265-315 | the bookkeeping of an exit, written out: state from the wait status, logger stop, `once` cleared, counter, breaker after five short runs, next start 2 or 10 s later or never |
| Reaping.MainExit | src/main.rs:265-315 | the step of a reaped main process does exactly that to its slot, and sends SIGTERM to the logger if and only if the service was being stopped or is reported as stopped by a job control signal |
| Reaping.LoggerExit | src/main.rs:249-258 | the step of a reaped logger leaves its slot without one and changes and signals nothing else |
| Supervision.Supervisor.ReapOne | src/main.rs:241-319 | one turn takes exactly one step for the pid the kernel returned: the logger, else the main process, else nobody; a finish script is forked for a main process if and only if it is executable and the fork succeeds |
| Supervision.Supervisor.ReapAll | src/main.rs:241-320 | the loop goes on until the kernel has nothing more to wait for, ends although exits fork finish scripts, and reports whether a main process ended unasked; the answers of the kernel meanwhile are exactly the reaped pids, in order, each with the answers about its finish script, and at last that nothing waits |
| KernelAnswers.FinishIff | src/service.rs:270-280 | a finish script is forked if and only if it is executable, and runs if and only if that fork succeeds |
| Reaping.ReapShrinks | src/main.rs:241-320 | each reaped child lowers unreaped children plus live main processes |
| Supervision.Supervisor.KillMainOnLogDeath | src/service.rs:437-454 | stops exactly the running services that were started with a logger (`has_log`) and have it no more, one SIGTERM each; a service without a logger of its own is left alone |
| Causes.LostLoggerOnly | src/service.rs:437-454 | in every run from the start of the program, a service is stopped for want of its logger only when its last launch started a logger and the service and that logger has been waited for since |
| Causes.NoLostLoggerRuns | src/main.rs:324 | conversely, after a reaping phase no running service is left whose last launch started a logger that has been waited for since |
| Supervision.Supervisor.ReapChildren | src/main.rs:239-325 | reaps, then propagates if and only if an exit was unasked, then stops what lost its logger, in that order; the kernel has been asked exactly what the reaped exits stand for and has answered at last that nothing waits |
| Reaping.MarkedClosedIff | src/main.rs:321-324 | stopping any set of services, those that have lost their loggers for one, leaves a closed running set closed if and only if no other running service hard-depends on one of those stopped |
| Reaping.ReapPhaseClosed | src/main.rs:282-324 | a call that saw an unasked exit, or began with a closed running set, leaves the running set closed if and only if no service it stops for want of its logger has a running dependent left |
| Scenarios.LostLoggerStrands | src/main.rs:321-324 | a state reached from the start of the program in which the running set is closed, and a call that reaps one logger after which it is not |
| Closure.CrashesContained | src/main.rs:239-325 | in every run of starts, new registrations under new names, exits and `start`/`up`/`once`/signal commands, each running service has all hard dependencies running after every `reap_children` and in between, as long as no service stopped for want of its logger leaves a running dependent |
| Closure.StopClosedIff | src/ctrl.rs:195-209 | `stop`, `restart` and `down` leave a closed running set closed if and only if their target was not running or no other running service hard-depends on it |
| Scenarios.StopStrands | src/ctrl.rs:195-209 | a state reached from the start of the program in which nothing has lost a dependency, and `stop` leaves a dependent running |
| Supervision.Supervisor.FindServiceByName | src/service.rs:37-44 | finds the first active slot with the name, or none |
| Supervision.Supervisor.AllDepsUp | src/service.rs:22-35 | true if and only if every hard dependency is found and running |
| Guards.FdGuard.IntoRaw | src/fd.rs:27-31 | the descriptor is given away and the guard owns nothing any more |
| Guards.FdGuard.Drop | src/fd.rs:34-38 | the descriptor is closed if and only if the guard still owns it |
| Guards.NewPipe | src/fd.rs:48-67 | two distinct new descriptors under one guard each, or nothing |
| Supervision.Supervisor.OpenPipes | src/service.rs:127-157 | two pipes with four distinct new descriptors, or nothing left open |
| Supervision.Supervisor.StartLogger | src/service.rs:83-125 | a logger runs if and only if its script is executable, there is a pipe and the fork succeeds; it leaves one new write end, otherwise nothing is left open |
| KernelAnswers.LoggerIff | src/service.rs:83-125 | a logger runs if and only if there is to be one, its script is executable, the pipe is there and the fork succeeds; otherwise it is not forked, and a service that has none asks for nothing |
| KernelAnswers.MainIff | src/service.rs:127-247 | the service runs if and only if its fork succeeds; without a logger two pipes come before that fork and the two logs are opened after it |
| Supervision.Supervisor.LaunchFailed | src/service.rs:253-267 | failed, no process, tried again after 2 s; a logger started before stays; no descriptor is lost |
| Supervision.Supervisor.LaunchedPiped | src/service.rs:234-247 | running with two read ends and whichever logs could be opened, each under its path with the file size as its length |
| Supervision.Supervisor.StartService | src/service.rs:66-268 | one legal launch step whose outcome is determined by the answers to access, pipe, fork and open; on every path of success and failure no descriptor leaks, none is closed twice, the ledgers hold, and no file changes but for the opening of the two logs |
| Supervision.Supervisor.StartPass | src/main.rs:91-102 | one event for each slot that is there, not running, not being stopped, has come to its start time and has been asked for or starts by itself and not just once, in slot order: a launch if its dependencies run at that moment, a deferral by one second otherwise; the answers of the kernel meanwhile are, launch after launch, those to access, pipe, fork and open that make its outcome, and none for a deferral |
| Unasked.OnceWaits | src/main.rs:94 | in every run: a service that runs once, is not running and has not been asked for is not launched before a `start` or `restart` command or a new registration |
| Unasked.DownWaits | src/main.rs:94 | in every run: a service that is down and has not been asked for is not launched before a `start`, `restart` or `up` command or a new registration |
| Unasked.EachStartAsked | src/service.rs:234-247 | each start of a service that is down has been asked for: between a start that has succeeded and the next launch there is such a command or registration |
| Passes.PassStarts | src/main.rs:91-102 | a due service whose dependencies run before a pass without failed launches runs after it |
| Passes.PassIsAbout | src/main.rs:93-95 | a pass launches or defers a slot if and only if its service is there and not running, is not being stopped, has come to its start time, and has been asked for or starts by itself and not just once |
| BringUp.CalmGap | src/main.rs:78-182 | reading the clock, draining, sending signals and reaping children held by no slot disturb nothing: names, running services and enabled services stay |
| BringUp.RoundsBringUp | src/main.rs:91-102 | after k passes without faults, each made when every deferred start has come due, with any undisturbing steps between them, every service of dependency rank below k is running |
| BringUp.BringUpExact | src/main.rs:91-102 | from nothing running, as many such passes as slots bring up exactly the services all of whose dependencies can come up |
| Startup.RescanSame | src/scan.rs:103-143 | a scan that lists exactly the registered directories leaves an enabled table as it is |
| Startup.TurnsBringUp | src/main.rs:78-182 | the same for turns of the main loop with all their reaping, clock readings, scans, draining and harmless commands: after k calm turns every service of dependency rank below k is running |
| Startup.TurnsBringUpExact | src/main.rs:78-182 | from nothing running, as many calm turns as slots bring up exactly the startable services |
| Startup.AddedIsStarted | src/main.rs:82-102 | a service added by a scan, with no markers and no dependencies, runs after the start pass of the same turn if no launch fails |
| Startup.ScansApart | src/main.rs:82-89 | after a scan the next one comes in the first turn in which a reload is asked for or fifteen seconds have passed |
| BringUp.UnstartableIsGreatest | src/service.rs:22-44 | the others are the greatest set in which each member needs an unregistered name or a member |
| BringUp.AllStartableIffAcyclic | src/service.rs:22-44 | with all hard dependencies registered, everything can come up if and only if there is no cycle |
| BringUp.OnlyStartableRun | src/main.rs:93-99 | in any run on the same registrations, commands and exits included, nothing else is ever running |
| Closure.NeverRunning | src/main.rs:93-99 | if every service ever registered under a name of a set waits for a name of the set, no service of that name runs in any run, manual `start` included |
| Supervision.Supervisor.SwapLogFile | src/service.rs:479-530 | close, optional rename, reopen: descriptors change by exactly the old and the new log end, files by at most that rename and the opening of the log path |
| Supervision.Supervisor.ReopenLog | src/service.rs:479-530 | `open_log` and `rotate_log`: one legal step that leaves the stream at its log path with the file size as its length; it fails exactly when the kernel refuses |
| LogFiles.RotationMissesLog | src/service.rs:512-529 | for every directory: the path renamed by rotation differs from the log path if and only if there is room for two more bytes; then neither end of the rename is a log of the service, and otherwise both ends are one path |
| LogFiles.LogsApart | src/service.rs:479-492 | services in different directories below one root log to different files |
| LogFiles.RotationSpares | src/service.rs:512-529 | rotation in one directory renames no log of any service |
| LogFiles.LogsSharedIff | src/service.rs:484-492 | the two streams of a service share one log file if and only if its directory leaves no room for fourteen more bytes |
| LogFiles.PathsAsWritten | src/service.rs:479-530 | the streams are logged to `log/current.out` and `log/current.err` of the directory, and rotation renames `current.out` and `current.err` of the directory itself |
| LogFiles.ArchiveAsWritten | src/service.rs:519-526 | the target of that rename is its source with the wall clock and the number of the rotation behind it, while that fits |
| Logs.InertKeeps | src/main.rs:78-226 | exits, commands, propagation, removal, logged launches, scan marks and final sweeps keep the log invariant and change no log |
| Logs.ReopenKeeps | src/service.rs:479-530 | so do opening and rotating |
| Logs.LaunchKeepsLogs | src/service.rs:234-247 | so does a launch that opens both logs |
| Logs.RegisterKeepsLogs | src/scan.rs:20-101 | so does a registration below the root |
| Logs.WriteKeeps | src/service.rs:545-553 | a write keeps the log invariant, adds its data to the log of its own stream and changes no other log |
| Logs.SharedLengthIff | src/service.rs:545-550 | with both lengths exact, a write to one stream leaves the length of the other exact if and only if the directory leaves room for fourteen more bytes |
| Supervision.Supervisor.LogsNow | src/service.rs:479-583 | at every point of the program: each open log end leads to the log path of its stream with the file size as its length (unless the two streams share the path), and each log is what it was at first followed by what has been written to it |
| Drains.WritesCarry | src/service.rs:532-554 | what `write_log` writes is a prefix of the data, all of it if and only if no step fails |
| Draining.WriteAll | src/fd.rs:157-167 | appends a prefix of the data, all of it if and only if it reports success, and fails only when a write fails |
| Draining.WriteLog | src/service.rs:532-554 | opens the log if it is not open, rotates it exactly when it would exceed the limit, then writes or gives up; the log gains a prefix of the data, all of it if and only if nothing fails, and then exceeds the limit if and only if its old content and the data together do |
| Reading.RotatesIff | src/service.rs:532-544 | an open log is rotated if and only if it and the data exceed 1 MiB; one that is not open is opened first, and then rotated if and only if what was found and the data do |
| Drains.LogUnbounded | src/service.rs:537-550 | no size bound holds: for every n there are calls of `write_log`, rotating as the code does and refused by nobody, after which the log is longer than n |
| LogScenario.LogOutgrows | src/service.rs:537-550 | from the start of the program: a service without a logger is registered and launched, and for every n calls of `write_log` that nobody refuses make its log longer than n |
| Draining.DrainStream | src/service.rs:556-583 | reads until a read does not fill the buffer; after each read the chunk is logged or dropped, and the end closed exactly after end of file or an error |
| Reading.DrainReads | src/service.rs:556-583 | draining an open pipe reads at least once: any number of full buffers of 4096 bytes, then one read that does not fill the buffer; the pipe is closed if and only if that last read met the end of the stream or an error |
| Drains.DrainedBalanced | src/service.rs:556-583 | while no step fails, draining a stream writes exactly what it reads, in order, whatever is rotated meanwhile |
| Draining.DrainAllOnce | src/service.rs:585-595 | each stream of each active slot is drained until a read does not fill the buffer; each log gains exactly what is written to it, which is what is read for it unless the kernel refuses something; nothing but streams changes |
| Logs.ConservesAll | src/service.rs:479-583 | without a failed step each log is its old content followed by what was read for it, in order |
| Shutdown.Ready | src/service.rs:386-398 | true if and only if no hard dependency remains |
| Shutdown.Sweep | src/service.rs:381-405 | one sweep keeps dependencies before dependents and, if it emits nothing, leaves a set in which each member needs a member |
| Shutdown.ComputeOrder | src/service.rs:367-406 | the in-place sort emits distinct slots, dependencies first, and leaves such a set |
| StopOrder.LeftoverIsGreatest | src/service.rs:377-406 | what is left over is the greatest such set of the snapshot |
| StopOrder.LeftoverIffCycle | src/service.rs:402-406 | something is left over if and only if the snapshot contains a cycle of hard dependencies (by the pigeonhole principle) |
| Shutdown.StopAllInOrder | src/service.rs:367-435 | the order, then the leftover in slot order, are told to stop, one SIGTERM to each main process |
| Shutdown.QuietRun | src/main.rs:192-199 | while only reaping and draining, live processes only disappear, nothing runs, no process group is signalled |
| Shutdown.ReapQuietly | src/main.rs:193 | during shutdown `reap_children` stops nothing |
| Shutdown.AnyOpenServices | src/service.rs:456-464 | true if and only if some active slot has a process or a read end |
| Shutdown.AwaitExit | src/main.rs:191-199 | both waiting loops reap until the kernel answers that nothing waits, drain everything and read the clock, turn after turn, and end by the clock with nothing open or past the deadline; all answers of the kernel are accounted for by these steps |
| Reading.WaitTurnReads | src/main.rs:191-199 | each turn of a waiting loop reads every open pipe of every active slot at least once |
| Shutdown.KillRemaining | src/main.rs:200-207 | one SIGKILL to each main process left, in slot order |
| Shutdown.ShutDown | src/main.rs:188-226 | the whole phase, event by event: order, a wait of five seconds unless nothing is open before, kills, a wait of two seconds unless nothing is open before, final sweep; every active slot ends down without process or descriptor and no descriptor is open |
| Shutdown.SignalledOnce | src/main.rs:188-207 | each main process there at entry gets exactly one SIGTERM, and exactly one SIGKILL if it is there at the first deadline and none otherwise |
| Shutdown.ShutdownBalanced | src/main.rs:188-226 | a shutdown loses no output: unless a step fails, each log gains what is read for it |
| Shutdown.OrphanUnsignalled | src/main.rs:188-207 | a logger that no slot holds gets no signal from the shutdown and is still a child after it, if it has not ended by itself |
| LoggerSignals.UnlistedLogger | src/service.rs:407-434 | the logger of a service that is neither running nor stopping when the shutdown begins gets no SIGTERM: all it gets is one SIGKILL, if and only if it is still there at the first deadline |
| LoggerSignals.ListedLogger | src/service.rs:407-434 | telling everything to stop sends the logger of each service that is running or stopping exactly one SIGTERM, unless it has been told before, and none to any other |
| Shutdown.ShutdownStartsNothing | src/main.rs:188-226 | no step of a shutdown is a launch |
| Scan.FindServiceByDir | src/service.rs:46-53 | finds the first active slot with the directory, or none |
| Scan.AddService | src/scan.rs:20-101 | registers in the first free slot, with `auto_start` off exactly for a `down` marker, `once` and `has_log` as found, the dependencies of the file, and nothing asked for or running; or leaves the directory out if the table is full |
| Registry.NewAsFound | src/scan.rs:20-101 | whatever a scan makes active is some listed entry as found: its name cut to 63 bytes, its markers, the dependencies of the first 512 bytes of its file, nothing asked for, nothing running, no start time |
| Unasked.FoundDownWaits | src/scan.rs:32-36 | a service found with a `down` marker is not launched, in any run, before a `start`, `restart` or `up` command or a new registration |
| Unasked.FoundOnceWaits | src/scan.rs:37-41 | a service found with a `once` marker is not launched, in any run, before a `start` or `restart` command or a new registration |
| Scan.ScanServices | src/scan.rs:103-143 | the table becomes the scan of the listing; an unreadable root changes nothing |
| Registry.ScanKeeps | src/scan.rs:103-143 | registered services keep their slots, are present exactly when listed and then lose their stop mark; new ones go to free slots; none is left out while a slot is free; no directory is registered twice |
| Registry.RootedUnique | src/scan.rs:27-28 | for services registered under the names of their directories, names are unique if and only if directories are |
| Registry.ScanRooted | src/scan.rs:103-143 | scanning names of at most 63 bytes and paths that fit keeps names unique |
| Registry.ScanUniqueIff | src/types.rs:131-136 | after a scan names are unique if and only if no two registered directories have names that agree in 63 bytes; while a slot is free those are the directories registered before and the ones listed |
| Registry.LongNamesClash | src/types.rs:131-136 | a listing of two names of 64 bytes or more that agree in 63 gives an empty table two services of one name |
| Scan.StopRemoved | src/scan.rs:150-157 | propagates first, then signals the removed service, even if propagation has just done so |
| Scan.HandleMissingServices | src/scan.rs:145-173 | slot after slot, exactly: propagation and the signal to a removed process not yet told to stop, the signal to its logger, and the release of the slot if and only if both processes are gone; other services may be told to stop and nothing else |
| Causes.RemovedOnly | src/scan.rs:145-173 | in every run from the start of the program, a service is stopped as removed, and a slot given back, only when the last scan has begun and not found the service |
| Removal.RemovedLeave | src/scan.rs:145-165 | which dependents of several removed services stay up: those of the last one told to stop, if it was running and had not lost a dependency itself, and no others |
| Depends.ParseDepends | src/scan.rs:47-84 | the cursor loops compute: split at CR and LF, trim, drop blank lines, `?` is soft, first 16, names cut to 63 bytes |
| Depends.LineRoundTrip | src/scan.rs:56-76 | a printed dependency is read back if and only if its name fits, has no blank at the ends of its line and, if hard, does not begin with `?` |
| Depends.ParseUndoesPrint | src/scan.rs:45-84 | parsing undoes printing for every list of such dependencies that fits 512 bytes, with LF, CR or both as line ends; of more than sixteen the first sixteen are kept |
| Depends.PaddedLine | src/scan.rs:56-63 | spaces before a dependency and spaces or tabs behind it change nothing, and alone stand for nothing |
| Environments.Environment.Store | src/user.rs:195-208 | a variable that fits is appended back to back with its terminator and offset, otherwise nothing changes |
| Environments.Environment.Read | src/user.rs:163-213 | the buffer holds the first 64 assignments of the file in order, each at its offset, but for a last one that does not fit |
| Environments.ReadUndoesPrint | src/user.rs:174-186 | reading a printed file gives back exactly its assignments in order, with LF, CR or both as line ends and blanks or tabs around each line; comments, values without a name and lines without `=` contribute nothing |
| Environments.KeptAsPrinted | src/user.rs:172-213 | of a printed file that does not fill the buffer exactly the first 64 assignments are kept |
| Environments.LostExactly | src/user.rs:195 | a variable is lost for space if and only if the file fills the buffer, has at most 64 lines and each is a bare assignment; it is then the last line |
| Environments.ServiceSees | src/user.rs:203-206 | for a file without NULs the C string at each offset is the variable that belongs there |
| Numbers.SaturatingPrefix | src/ctrl.rs:415-426 | the accumulator is min(true value, maximum) of the longest digit prefix, on every input |
| Numbers.ParseNumericOrName | src/user.rs:89-108 | min(true value, 2^32 - 1) if everything before trailing blanks is digits, nothing otherwise |
| Numbers.NumericRoundTrip | src/user.rs:89-108 | parsing undoes printing for every number, whatever blanks and line ends follow, and gives 2^32 - 1 for larger ones |
| Numbers.NotNumeric | src/user.rs:99-107 | data with a character that is no digit, other than blanks at its end, is not a number |
| Numbers.DecimalAsWritten | src/path.rs:53-69 | numbers are printed in decimal, most significant digit first |
| Numbers.DigitsOfU64 | src/path.rs:58 | twenty digits suffice for every u64 |
| Paths.CStrBuf.PushByte | src/path.rs:42-51 | the buffer keeps the first 1023 non-zero bytes, terminated |
| Paths.CStrBuf.PushU64 | src/path.rs:53-69 | pushes the decimal digits, most significant first |
| Paths.CStrBuf.PushI64 | src/path.rs:71-82 | the same for every i64, the smallest included |
| Paths.PushesPack | src/path.rs:36-51 | any sequence of pushes keeps the first 1023 non-zero bytes of the concatenation |
| Commands.SplitCmd | src/ctrl.rs:70-85 | the first word and the trimmed rest |
| Commands.ParseSignal | src/ctrl.rs:415-431 | a signal number from 1 to the largest, if and only if the true value of the digits is one |
| Commands.ReadRequest | src/ctrl.rs:144-147 | the request a line stands for, through one or two splits |
| Commands.OperationLine | src/ctrl.rs:172-312 | every operation is understood as printed for every name without blanks at its ends, and without a name is a usage error |
| Commands.OperationByWord | src/ctrl.rs:172-312 | the words `start`, `stop`, `restart`, `down`, `up` and `once` ask for the operations of these names, and alone are usage errors |
| Commands.SignalUnderstood | src/ctrl.rs:401-431 | `signal <name> <n>` is understood as printed through nested splits for n from 1 to 64, and refused as an invalid number otherwise |
| Commands.SignalWithoutNumber | src/ctrl.rs:401-413 | `signal` without a service, and with a service but without a number, is a usage error |
| Commands.RequestRoundTrip | src/ctrl.rs:144-461 | every request is understood as printed, whatever blanks follow |
| Commands.NamedSignal | src/ctrl.rs:87-147 | a line that begins with the name of a signal is understood as that signal to the named service, whatever blanks follow, and without a service is a usage error |
| Commands.NamedAsNumbered | src/ctrl.rs:87-95 | `hup`, `int`, `quit`, `kill`, `usr1`, `usr2`, `alrm`, `term` and `cont` ask for the same as `signal` with 1, 2, 3, 9, 10, 12, 14, 15 and 18 |
| Commands.UnknownIff | src/ctrl.rs:458 | a line is refused as unknown if and only if its first word is none of the twenty-one commands |
| Control.HandleControlCommand | src/ctrl.rs:144-461 | reply and steps of every request: lookup errors, `stop` with propagation first, one check script for `check` with the reply that its answers and its wait status make, and no step for listing, status and reload |
| Orders.StartObeyed | src/ctrl.rs:172-186 | from the text to the table: `start <name>` marks the service as asked for, with start time 0 and no stop mark, and changes and signals nothing else |
| Orders.StartStarts | src/main.rs:91-102 | a service that is there and not running is running after `start` and the next faultless pass, if its dependencies run, whatever its markers and its start time were |
| Orders.StopObeyed | src/ctrl.rs:187-209 | `stop <name>` ends with SIGTERM to the group of the main process and to the logger, as far as they are there, and leaves the service stopping |
| Orders.RestartObeyed | src/ctrl.rs:210-232 | `restart <name>` sends the same two signals and marks the service as stopping and as asked for |
| Orders.DownObeyed | src/ctrl.rs:233-267 | `down <name>` turns automatic start off; only a live service is signalled and marked as stopping |
| Orders.UpObeyed | src/ctrl.rs:268-286 | `up <name>` turns automatic start on, with the present as start time, and lifts a stop mark |
| Orders.UpStarts | src/main.rs:91-102 | a service that is there, not running and not to run just once is running after `up` and a faultless pass, if its dependencies run |
| Orders.OnceObeyed | src/ctrl.rs:287-312 | `once <name>` sets the flag and nothing else |
| Orders.SignalObeyed | src/ctrl.rs:97-142 | a named signal goes, with its number, to the process group of the service if it runs, and to nobody otherwise |
| Orders.CheckObeyed | src/ctrl.rs:313-386 | the reply to `check` for a known service: no script, a failed fork, or the exit code, stop or signal that the wait status of the script reports |
| Orders.NobodyObeys | src/ctrl.rs:150-400 | for a name that no service bears, `status`, `check`, every operation and every named signal are answered with not found and do nothing |
| Orders.Shows | src/ctrl.rs:148-171 | `list`, `stat`, `status` and `reload` are answered and do nothing |
| MainLoop.ServeReady | src/main.rs:151-182 | what is ready is served in order: each line gets the reply that is returned for it, each ready pipe of an active slot is drained until a read does not fill the buffer |
| MainLoop.OneTurn | src/main.rs:78-182 | a turn is a reaping phase, a clock reading, a scan if and only if it is due, which makes the table that of the listing and then deals with missing services, a start pass at that clock reading, then what is ready, with the replies returned; the answers of the kernel to waitpid, access, pipe, fork and open are exactly those that these steps stand for |
| MainLoop.TurnsBalanced | src/main.rs:78-182 | over any number of turns each log gains what is read for it, unless a step fails |
| MainLoop.Supervise | src/main.rs:72-226 | from the zeroed table: the history is exactly the first clock reading, the given turns one after the other and the shutdown; every step is legal; the bytes read and the answers to every wait, fork, pipe, open and access are exactly those of the history, so each turn and each waiting turn has reaped until nothing waited and each launch came out as the kernel answered; each log ends as its first content followed by what was read for it unless the kernel refused something; every slot is given up and no descriptor is open |

## Left out

- Code that runs in a child after `fork` (setsid, chroot, setuid, limits, execve): it has no state of the supervisor.
- The control socket, `poll`, `accept`, umask and the signal self-pipe: a turn of the loop is given what is ready, in any combination.
- Text of replies, `list` and `status` output, status files and the supervisor's own log.
- `/check` and `/finish` scripts beyond the child they fork and, for `/check`, how it ends; exit codes and signals of services are not stored, since nothing but text depends on them.
- Passwd and group lookup, uid, gid and chroot fields: they matter to the child only.
- Marker files `down` and `once` written by commands: what a scan reads about a new directory is a parameter of the scan.
- Descriptors opened and closed within one call for status, dependency and environment files.
- Interrupted system calls: `close`, `read`, `write`, `waitpid` and `nanosleep` are taken to complete; a failed `write` is taken to have written nothing of that call.
- Restart.StartsBounded: runs are taken up to the final sweep of the program, after which nothing is started.
- Restart.RestartHalts: runs are taken up to that sweep here, too.
- Causes.LostLoggerOnly: the same holds here.
- Causes.NoLostLoggerRuns: and here.
- Wrap-around of the 32-bit counters `restarts` and `rotations`, which are unbounded here.
- Shutdown.ShutDown: the last hour of the range of the 64-bit clock is left out, since deadlines would overflow there; the monotonic clock is taken not to come within an hour of `i64::MAX`.
- The early return of `start_service` for a slot that must not be started: the start pass has checked the same conditions.
- Links in the file system: different log paths are taken to be different files, and nobody but the supervisor writes to them.
- Draining.DrainStream: only finitely many full reads are met in a row, since the loop would not end otherwise.
