# A verified model of EzHPCy's tunnels

EzHPCy opens SSH tunnels to a worker job on a cluster. A tunnel connects to the
login node, submits a job that runs `sshd` under a shell script, keeps the job alive
with leases in a control directory, gives it a loopback port here, and tells OpenSSH
about the port in a Host block that exists only while the tunnel serves. Whatever it
acquires it has to let go of again, however it is stopped.

This project models that in Dafny and proves what it is for:

| modules | what they model |
|---|---|
| `Finishing`, `Session`, `SessionInvariants`, `SessionResults`, `SessionEnds`, `SessionStops`, `SessionServes`, `SessionHolds`, `SessionWaits`, `SessionFinishes`, `SessionWayOut`, `Tunnel` | `TunnelSession`: one tunnel from connecting to the end of its cleanup. `Session` is a machine whose steps are the stretches between awaits; the environment interleaves them with Ctrl+C, at prompts and elsewhere, lost connections, failing background tasks, scheduler verdicts, failing and slow cleanup steps. `Tunnel` is the same as an object, which keeps the machine's invariants and whose runs end with what the machine's do. `Finishing` is `_finish` by itself. |
| `Text`, `Leases`, `Watchdog`, `Protocol`, `WorkerScript` | The control directory as the tunnel and the worker's two shell programs share it: leases and how the watchdog reads and times them, both together, the port loop, the status record and its parser. |
| `Tunnels`, `TunnelHistory`, `Pruning` | Any number of tunnels on one machine: alias locks, Host blocks, pruning, and processes killed at any point. |
| `Utf8`, `JobOutput` | An interactive job's output in chunks: UTF-8 decoding (section 3 of RFC 3629), the search for the job ID, the lines of the log. |
| `Replay`, `LogFilter` | The log's replay and filter. |
| `OutputThread`, `Displays`, `Prompts`, `Console` | The thread that makes the console's calls and draws the live display: under any users of its functions, under this program's prompts, and as the objects they are. |
| `Profiles` | Profile inheritance, and where `config show` says a setting comes from. |
| `Connect`, `Forwarding` | The interactive connect loop, and the count of forwarded connections. |

`dafny verify dfyconfig.toml` checks all of it.

The environment is a sequence of events, or a value per question asked of it
(attempts, replies, chunks, turns), over all of which the theorems quantify. An event
that cannot happen in a state leaves it as it is, so a theorem about all sequences of
events is one about all runs.

## What the proofs found

Claims of the code or its comments that do not hold as they stand, each with the exact
condition under which they do, and most with a run that shows it:

- `asyncio.gather` is over as soon as one child has failed or was cancelled, whatever
  the others do. So not only a failure to make a directory but also a Ctrl+C, while
  the working or the log directory is still being made, takes the main task out of
  the `gather` at session.py:274-278 with `control.create()` running on; the control
  directory may then be made after its cleanup. `_finish`'s promise that the stop
  waits for the step holds there exactly if the creation is the only child left
  (`SessionResults.StopInTheGather`, `SessionResults.TheGatherIsLeftLoose`).
- Once the login connection is gone so is the forwarded port, while the Host block
  stays until the cleanup removes it, so for that time the block outlives its port
  (`SessionResults.ALossLeavesTheBlockWithoutItsPort`), and for that time only
  (`SessionResults.ABlockMeansAPort`).
- Ctrl+C at a prompt while connecting raises `KeyboardInterrupt`, which neither handler of
  `run` catches. `run` then ends without a stop, without STOPPING being reported, and
  raises that, not the error of a first stop: exactly then (`SessionEnds.TheFirstStopWins`,
  `SessionEnds.AnInterruptEndsWithoutAStop`). The next Ctrl+C counts as the first, and
  cancels the main task in the middle of the lock's release, which is cut short; in no
  other way is the cleanup cancelled (`SessionEnds.TheCleanupIsCancelledOnlyThen`,
  `SessionEnds.AStopCutsTheReleaseShort`).
- `create_server` listens before it returns. A stop delivered in between leaves a port
  that listens until the process ends, with nobody to close it: exactly then
  (`SessionEnds.AListenerIsLeftStray`, `SessionEnds.AStopMayLeaveAListener`).
- A block that a killed tunnel of the same alias left is live to every prune as soon as
  the next tunnel holds the lock, its own prune included. It stays, naming a dead port,
  until the new tunnel writes its own or withdraws, so throughout if the write fails:
  exactly then (`SessionResults.AStaleBlockStays`, `SessionResults.AStaleBlockNamesADeadPort`).
- The watchdog's scan and its check of the clock are two steps. That leases come in
  time is not enough if the check may come `stall` seconds after the scan
  (`Watchdog.AStalledCheckMayRaiseAnAlarm`). No way of scanning raises an alarm while
  a next lease is still to come if and only if, for every lease, the gap before it and
  the stall together stay below the timeout (`Watchdog.SteadyExactlyIfNothingAlarms`).
- A rename that took effect but was reported as failed leaves the directory with a
  later lease than the tunnel's last success (`Leases.TheLatestMayBeUnanswered`); the two
  agree exactly if an answered rename came after every such one
  (`Leases.TheLatestIsTheLastSuccess`).
- A serving tunnel has its Host block exactly if the publication could write it, which
  otherwise only warns, and nothing took it since (`Tunnels.ReachableUnlessTaken`). Two
  things may, and no other: a prune that had checked the lock before the tunnel took it
  (`Tunnels.LostToAnEarlierCheck`, `Tunnels.APruneMayTakeALiveBlock`), and a withdrawal or
  publication that an earlier tunnel of the alias gave up on, and that goes on in its
  thread (`Tunnels.LostToAnEarlierTunnel`, `Tunnels.ALateWithdrawalMayTakeALiveBlock`).
- A process that only asks whether a tunnel runs holds the lock for a moment, in which
  another prune keeps a stale block and a tunnel that starts is refused
  (`Tunnels.StartsExactlyWhenFree`, `Pruning.PruneRemovesTheStale`).
- With the log file at level `NOTSET`, which the configuration accepts, the package
  logger is at `NOTSET` too, works at the root logger's level, and drops what the file
  should have (`LogFilter.ExactlyAboveNotset`).

The live display's functions promise less than what this program gets from them. The
output thread remembers only the last display that failed to draw, and hides only the
one it shows. So for calls in any order, from anybody, a failed display can be drawn
again exactly if it is to be shown twice with another in between
(`Displays.DrawnAgainExactlyIfShownBetween`), and one can be left up exactly if the last
call about it is to show it (`Displays.LeftUpExactlyIfShownLast`). Pauses of several
threads could bring that about (`Displays.ALatePauseDrawsAFailedDisplayAgain`,
`OutputThread.ALatePauseLeavesTheDisplay`, `OutputThread.ANestedPauseShowsTheDisplay`).
This program has one display, and pauses it only in `ask`, which blocks the thread that
shows it: there neither happens in any run (`Prompts.AFailedDisplayIsGone`,
`Prompts.NoDisplayIsLeft`, `Prompts.APromptHasTheTerminal`).

## What is assumed of the rest

- Cancellation is delivered when the task resumes; a shielded wait, and
  `asyncio.wait`, end as documented; a step awaited directly that fails or is
  cancelled has acquired nothing, but for the port's listener; the caller does not
  cancel `run`. Only connecting asks the user for anything.
- A cleanup step either does what it is for, or is reported as failed or timed out;
  for `rmtree(ignore_errors=True)` leaving the directory counts as failing, and so does
  an unlink of the Host block that fails, which only warns. Stopping a
  background task and closing the interactive shell never raise.
- The OS frees a lock when its process ends; a lock file is never removed; a rename
  and an unlink are atomic.
- asyncssh passes the client the host and port that were asked for, raises
  `create_connection`'s errors only before the channel's session is connected, and
  calls `close` on a connection that is lost.
- The display's block and `ask` are on the main thread, as `ask`'s documentation demands;
  a call that an output thread's turn makes is one step.
- The clock of the shell counts whole seconds and does not go back.

## Model

| member | source | states |
|---|---|---|
| Finishing.ThenIsCalledOnceOrNever | src/ezhpcy/tunnel/session.py:698-734 | For every ordering of the step's end, the cancellation and the timeout, `then` is called at most once, with the step's result; past the waits, exactly if there is a result and the step was not given up on. |
| Finishing.ThenIsCalledIfTheResultCameInTime | src/ezhpcy/tunnel/session.py:716-734 | In terms of the events alone: `then` is ever called if and only if the result came before the turn in which the caller left the waits, even if the timeout had passed too. |
| Finishing.ShieldedUntilItWakes | src/ezhpcy/tunnel/session.py:715-718 | In terms of the events alone, like the next two: the caller is in the shielded wait if and only if no turn has come yet after the step's end or a cancellation. |
| Finishing.UncancelledItReturns | src/ezhpcy/tunnel/session.py:715-718 | Not cancelled before its first such turn, it returns the result or raises the step's error, whatever comes later. |
| Finishing.CancelledItWaitsOn | src/ezhpcy/tunnel/session.py:718-734 | Cancelled before it, even with the step over, it waits on until a turn after the step's end or the timeout; the cancellation then goes on, and the step is given up on if and only if it is not over by that turn. |
| Finishing.EndedStays | src/ezhpcy/tunnel/session.py:728-734 | Once `_finish` is left, no later event changes how, or calls `then` again. |
| Finishing.StoppingEnds | src/ezhpcy/tunnel/session.py:718-731 | From any state, a cancellation leads out of `_finish` within two turns and a timeout. |
| Finishing.AwaitShielded | src/ezhpcy/tunnel/session.py:715-718 | The shielded wait ends at the caller's first turn at which it is cancelled or the step is over, with the step still running if cancelled. |
| Finishing.AwaitDone | src/ezhpcy/tunnel/session.py:720-721 | The second wait ends with the step or with the timeout, whichever the caller's turn finds. |
| Finishing.RunFinish | src/ezhpcy/tunnel/session.py:698-734 | The whole method, against any schedule: returns the result, raises the step's error, or passes the cancellation on, having called `then` as the machine says. |
| SessionInvariants.RunsKeep | src/ezhpcy/tunnel/session.py:128-157 | The session's invariants hold after every sequence of events: the stack is a prefix of the plan of cleanup steps, what is held has its step still to come, the first stop decided, or a prompt was interrupted with only the lock to release, the job's record fits what was inspected. |
| SessionResults.CleanupRunsInReverse | src/ezhpcy/tunnel/session.py:755-778 | When `run` ends, every registered cleanup step has run, once, in reverse order of registration, however each of them went. |
| SessionResults.NothingIsLeft | src/ezhpcy/tunnel/session.py:208-432 | When `run` ends, lock, login, SFTP session, control directory, shell, port, Host block and every task are gone, unless their own step went wrong or was cut short, `_finish` gave up, or the `gather` was left early. |
| SessionResults.TheGatherIsLeftLoose | src/ezhpcy/tunnel/session.py:274-278 | Exactly when the main task leaves the `gather` with the control directory's creation under way: another child failed or was cancelled, or the creation was given up on. |
| SessionResults.StopInTheGather | src/ezhpcy/tunnel/session.py:273-278 | A Ctrl+C in the `gather` takes the main task to the cleanup before the directory is made if and only if one of the other two directories is not made yet. |
| SessionResults.CtrlCMayLeaveTheControlDirectory | src/ezhpcy/tunnel/session.py:269-278 | A run in which every cleanup step works and yet a Ctrl+C leaves the control directory behind. |
| SessionResults.AFailureMayLeaveTheControlDirectory | src/ezhpcy/tunnel/session.py:269-278 | The same for a failure to make another directory. |
| SessionResults.ABlockMeansAPort | src/ezhpcy/tunnel/session.py:395-423 | With cleanup steps working and the publication not given up on, this tunnel's own Host block on disk means that the alias is locked and that its port is open as long as, and only as long as, the login connection is. |
| SessionResults.AStaleBlockStays | src/ezhpcy/tunnel/session.py:415-423 | An earlier tunnel's block under the alias is on disk if and only if it came there and since then this tunnel has neither written its own nor withdrawn, and nobody removed it. |
| SessionResults.AStaleBlockNamesADeadPort | src/ezhpcy/tunnel/session.py:212-221 | A run that holds the alias, nothing having gone wrong, with such a block on disk and no port open. |
| SessionResults.APortMeansALock | src/ezhpcy/tunnel/session.py:212-226 | An open port means an open login connection, and that the alias lock. |
| SessionResults.ALossLeavesTheBlockWithoutItsPort | src/ezhpcy/ssh.py:276-282 | A run in which a lost connection has closed the port while the tunnel's own block is still there. |
| SessionResults.TheJobIsCancelledOnce | src/ezhpcy/tunnel/session.py:736-741 | A job whose ID the session has is cancelled exactly once by the end, unless a query processed before had said that it ended: then never. With the monitor stopped those are all the queries. |
| SessionResults.ASubmittedJobIsKnown | src/ezhpcy/tunnel/session.py:345-348 | The session knows every batch job whose submission gave an ID, also when a stop arrived in the middle, unless it gave up on the submission. |
| SessionEnds.TheFirstStopWins | src/ezhpcy/tunnel/session.py:128-182 | Why the tunnel stopped is decided by the first call of `_stop`, of any number; what `run` raises is, if and only if no prompt was interrupted while connecting; the main task is cancelled at most once. |
| SessionStops.EveryReasonStops | src/ezhpcy/tunnel/session.py:159-182 | The calls of `_stop` are, in order, one for each reason among the events: a step or background task that fails, the loss of the connection, an answer that the job is over or in no known state, Ctrl+C. Each has its error, blamed on the loss if there was one, and its reason; none is left out and there are no others. |
| SessionStops.TheFirstReasonCounts | src/ezhpcy/tunnel/session.py:135-182 | Of those the first decides why the tunnel stops, and whether `run` raises, and what. |
| SessionStops.AFinishedJobStopsTheTunnel | src/ezhpcy/tunnel/session.py:667-694 | In every run, once a processed answer says that the job is over, or nothing known, the tunnel has a reason to stop. |
| SessionStops.TheMonitorStopsWithoutAnError | src/ezhpcy/tunnel/session.py:672-694 | If the monitor's answer that the job has ended is the first such reason, that end is why the tunnel stops, there is no error, and `run` returns rather than raise, whatever follows. |
| SessionWaits.TheWaitsComeInOrder | src/ezhpcy/tunnel/session.py:208-432 | In every run the main task awaits what it takes to serve in the source's order, leaving out nothing, up to where it is or where its cleanup began. |
| SessionFinishes.TheSubmissionIsFinished | src/ezhpcy/tunnel/session.py:346-348 | In every run of the session, a batch submission goes as `_finish` by itself does with the ends of the submission, the main task's turns there and the first stop as its events: what is proved of `_finish` holds of it. |
| SessionFinishes.ThePublicationIsFinished | src/ezhpcy/tunnel/session.py:420-423 | And so does the Host block's publication. |
| SessionFinishes.TheCreationIsFinished | src/ezhpcy/tunnel/session.py:274-278 | And the control directory's creation, with turns of its own, and cancelled with its siblings unless the `gather` is over. |
| SessionHolds.EverythingComesAndGoes | src/ezhpcy/tunnel/session.py:208-432 | In every run, for the lock, login, SFTP session, control directory, shell, port, listener, Host block and every background task: it comes about exactly when the step that acquires it succeeds, and goes exactly when its cleanup step does what it is for, with the login connection, or by itself; the shell also when its output is to stop with the job not over. |
| SessionServes.WhatWasAcquiredIsKept | src/ezhpcy/tunnel/session.py:216-344 | Until its own cleanup step comes up, the SFTP session is open unless the connection is lost, and an interactive job's shell until its output is to stop; nothing on the login connection outlives that. |
| SessionServes.TasksRunUntilStopped | src/ezhpcy/tunnel/session.py:226-426 | Every background task that has been started runs until the cleanup stops it, unless it ends by itself. |
| SessionServes.WhatRunsWhileServing | src/ezhpcy/tunnel/session.py:226-426 | While the tunnel serves, the watcher, the heartbeats, the monitor and, for an interactive job, the output run, but for one that ended by itself. |
| SessionServes.ReadyMeansItServed | src/ezhpcy/tunnel/session.py:424-428 | `ready` is set if and only if the tunnel has come to serve. |
| SessionServes.AnUndisturbedTunnelServes | src/ezhpcy/tunnel/session.py:208-432 | A run in which all goes well comes to serve, for a batch job and an interactive one, with everything acquired and every task running. |
| SessionEnds.AnInterruptPassesThrough | src/ezhpcy/tunnel/session.py:137-157 | After an interrupted prompt `run` raises that interrupt, or the cancellation if a stop came before the end; the phase is STOPPING only then; and the lock was all that there was to release. |
| SessionEnds.TheCleanupIsCancelledOnlyThen | src/ezhpcy/tunnel/session.py:173-182 | The main task is cancelled while it cleans up if and only if a prompt was interrupted and a stop followed before the end. |
| SessionEnds.ACancelledCleanupIsCutShort | src/ezhpcy/tunnel/session.py:755-778 | Exactly then a cleanup step is cut short, and it is the lock's release. |
| SessionEnds.AnInterruptEndsWithoutAStop | src/ezhpcy/cli/utils/prompt.py:17-34 | A run that an interrupted prompt ends, with no call of `_stop` and the phase still CONNECTING. |
| SessionEnds.AStopCutsTheReleaseShort | src/ezhpcy/cli/tunnel.py:301-332 | A run in which one more Ctrl+C then cuts the release short, with the lock still held at the end. |
| SessionEnds.AListenerIsLeftStray | src/ezhpcy/ssh.py:265-282 | A listener that nothing will close is there if and only if a stop was delivered between the port's listening and its result. |
| SessionEnds.AStopMayLeaveAListener | src/ezhpcy/ssh.py:265-282 | A run that ends with it, every cleanup step having worked. |
| SessionResults.NothingStartsAfterAStop | src/ezhpcy/tunnel/session.py:166-182 | After a stop no event starts a further step, cancels the main task again or changes the reason; nothing is registered but a job's cancellation, nothing comes about but what a step under way still brings. |
| SessionEnds.ThePhaseMovesForward | src/ezhpcy/tunnel/session.py:184-191 | No event takes the reported phase back, and none takes it out of STOPPING. |
| SessionWayOut.AStopGetsToTheEnd | src/ezhpcy/tunnel/session.py:135-157 | From whatever a stopped main task awaits or cleans up, every run that has at most four turns and timeouts, then an end of each step, however it goes, and of `run`, in that order and with any other events in between, comes to the end. |
| Tunnel.TunnelSession.constructor | src/ezhpcy/tunnel/session.py:115-126 | A new session is the machine's initial state and has its invariants. |
| Tunnel.TunnelSession.Handle | src/ezhpcy/tunnel/session.py:128-741 | For every event the object keeps the invariants of every run, and changes as the machine does, so that the results above are about the object. |
| Tunnel.RunSession | src/ezhpcy/tunnel/session.py:128-157 | Once a run of the object has ended: nothing is left in the world but what a cleanup step that went wrong, or was given up on, accounts for, and a listener lost to a stop; the job was cancelled once unless a query had found it over; and the error raised is that of the first stop, or after an interrupted prompt the interrupt or the cancellation. |
| Leases.PublicationsKeep | src/ezhpcy/worker/control.py:74-100 | Over every sequence of publications, with failed writes, renames and removals, the files, the tracked leases and the counter fit each other. |
| Leases.TheLastTwoAreKept | src/ezhpcy/worker/control.py:91-99 | Sequences of successes strictly increase; the tracked leases are the last two of them, or fewer at first, and are all in the directory. |
| Leases.OnlyTheseAreLeft | src/ezhpcy/worker/control.py:74-100 | Over every sequence of publications: a lease is in the directory if and only if its rename took effect and the second success after its own, if there was one, did not remove it; a temporary file if and only if its publication failed with the file there and could not remove it. |
| Leases.OnlyTheLastTwoAreLeft | src/ezhpcy/worker/control.py:91-99 | So if every publication goes well, exactly the last two leases are there, and no temporary file. |
| Leases.TheSequenceReturned | src/ezhpcy/worker/control.py:74-100 | What is returned is the number of the publication, if and only if the rename was answered and the removal of an old lease raised nothing but an SFTP error. |
| Leases.TheTemporariesHold | src/ezhpcy/worker/control.py:80-90 | A temporary file that is left holds as much of its own lease as was written. |
| Leases.TheWorkersFilesHold | src/ezhpcy/worker/control.py:74-100 | The worker's own files hold what it wrote last, whatever the tunnel publishes. |
| Leases.ListedLeasesAreWhole | src/ezhpcy/worker/control.py:80-86 | Whatever the watchdog's glob lists is a lease with all of its text, never one half written. |
| Leases.TheTunnelsNames | src/ezhpcy/worker/control.py:77-79 | Different sequences have different file names, of `lease.` and twenty digits or more, and the glob matches a lease's and no temporary file's. |
| Leases.LeaseReadsBack | src/ezhpcy/worker/job.py:66-72 | The shell reads a lease back as the sequence that the tunnel wrote, for every token and number. |
| Leases.ALeaseIsReadExactly | src/ezhpcy/worker/job.py:62-78 | For every text: a file reads as a lease of the run if and only if its first line is a whole one, of the token, then a sequence in digits, and nothing else but spaces around them. |
| Leases.LatestLeaseSequence | src/ezhpcy/worker/job.py:62-78 | The scan, over any listing order, gives the highest sequence of the valid leases, or none if there is none. |
| Leases.TheLastVisibleLeaseIsTheLatest | src/ezhpcy/worker/job.py:62-78 | After any publications the scan finds the last lease whose rename took effect. |
| Leases.TheLatestIsTheLastSuccess | src/ezhpcy/worker/control.py:81-100 | That is the tunnel's last success if and only if every rename that took effect without an answer was followed by one that was answered. |
| Leases.TheLatestMayBeUnanswered | src/ezhpcy/worker/control.py:81-100 | A run in which the directory has a later lease than the last the tunnel knows of. |
| Leases.WorkerControl.PublishLease | src/ezhpcy/worker/control.py:74-100 | Changes counter, tracked leases and directory as the specification of a publication says, for each way it can go. |
| Watchdog.Watch | src/ezhpcy/worker/job.py:80-97 | The loop is left in the first round that finds sshd gone, or the last new lease longer ago than the timeout, with that reason. |
| Watchdog.SteadyLeasesNeverExpire | src/ezhpcy/worker/job.py:82-96 | With the gaps between leases, and the stall of a check, below the timeout, no check expires, whatever the time between scans. |
| Watchdog.SteadyExactlyIfNothingAlarms | src/ezhpcy/worker/job.py:82-96 | And only then: whenever a gap and the stall reach the timeout, some times of scans make a check expire with the next lease still to come. |
| Watchdog.SteadyLeasesRaiseNoAlarm | src/ezhpcy/worker/job.py:83-97 | So the loop never reports a heartbeat timeout as long as leases come in time. |
| Watchdog.TheWatchdogLeavesInTime | src/ezhpcy/worker/job.py:83-97 | Once leases have stopped for good the loop is left, no later than the timeout, two scan periods and the stall after the last. |
| Watchdog.AStalledCheckMayRaiseAnAlarm | src/ezhpcy/worker/job.py:84-95 | Leases in time by themselves are not enough: a scan and a check far apart raise an alarm. |
| Watchdog.SendHeartbeats | src/ezhpcy/tunnel/session.py:634-665 | Between two heartbeats' leases there is the interval and the time the later write took. |
| Watchdog.HeartbeatsAreSteady | src/ezhpcy/tunnel/session.py:634-665 | An interval and slowest write a second below the timeout are in time by the shell's clock of whole seconds. |
| Protocol.TheDirectoryIsASchedule | src/ezhpcy/worker/job.py:62-97 | The watchdog's scans of the directory, as the tunnel's publications fill it, find what the results about the watchdog take them to: the last visible lease, and never an earlier one than before. |
| Protocol.HeartbeatsKeepTheWorker | src/ezhpcy/tunnel/session.py:634-665 | Both sides together: as long as the tunnel's heartbeats go out within the timeout less the stall and a second, the watchdog reports no timeout before the next lease, nor within the timeout after the last, whatever else is in the directory and whenever it scans. |
| Protocol.AnAbandonedWorkerEnds | src/ezhpcy/worker/job.py:83-97 | And once it publishes no more, the watchdog has left its loop no later than the timeout, two scan periods and the stall after the last lease in the directory. |
| WorkerScript.RunWorker | src/ezhpcy/worker/job.py:159-203 | The port loop ends; it tries the listed ports in order, up to the first whose sshd does not die at once, or all of them; and publishes what becomes of that one, or `failed no_ports`. |
| WorkerScript.Serve | src/ezhpcy/worker/job.py:174-199 | What one port's life publishes, for each way each publication and signal can go. |
| WorkerScript.WhatIsPublished | src/ezhpcy/worker/job.py:159-203 | From what the world does alone: `ready` is published if and only if a port's sshd is the first to stay up and the record got there; `stopped n` if and only if that sshd then exited with n and its record got there; the failures if and only if there was no watchdog, or no port. |
| WorkerScript.TheExitStatusIsRead | src/ezhpcy/worker/job.py:191-199 | With nothing interrupted, what the tunnel reads last is that sshd stopped, with sshd's own exit status. |
| WorkerScript.FirstPort | src/ezhpcy/worker/job.py:160-163 | Splitting the `ports` argument at its first colon takes off the first listed port, and ends with the last. |
| WorkerScript.ThePortsArgument | src/ezhpcy/worker/job.py:219-243 | The argument lists all ports, in order and separated by colons; for none there is an error instead. |
| WorkerScript.WorkersLive | src/ezhpcy/worker/job.py:159-203 | Whatever happens, the published statuses begin one of: failed; ready, then stopped; ready, then failed; with a listed port. |
| WorkerScript.PrintedState | src/ezhpcy/worker/job.py:145-155 | `publish_state`'s prints add up to the token, the state and the fields, separated by spaces, on one line. |
| WorkerScript.RecordReadsBack | src/ezhpcy/worker/control.py:102-132 | `read_status` reads each record back as the status it was published for, and does not raise. |
| WorkerScript.ReadyMeansAListedPort | src/ezhpcy/worker/control.py:113-132 | A status file reads as `ready` with a port if and only if it holds the token, the word and a number that is one of this run's ports. |
| WorkerScript.FailedMeansItSaysSo | src/ezhpcy/worker/control.py:113-119 | And as `failed` if and only if it holds the token, the word and the reason's words, which may be none. |
| WorkerScript.StoppedMeansItSaysSo | src/ezhpcy/worker/control.py:113-121 | And as `stopped` if and only if it holds the token, the word and the exit status in digits. |
| WorkerScript.WhatIsRaised | src/ezhpcy/worker/control.py:107-132 | Each error is raised for exactly the files that call for it; no status comes only of no file. |
| WorkerScript.IntegersAreRead | src/ezhpcy/worker/control.py:125-129 | `int` reads exactly an optional sign and groups of digits with single underscores between them, as the number those make. |
| WorkerScript.EveryReadingIsUnderstood | src/ezhpcy/worker/control.py:102-132 | At every moment of a worker's life the tunnel reads the status published last; `ready` comes first and once; nothing follows `stopped` or `failed`. |
| Tunnels.OneTunnelPerAlias | src/ezhpcy/tunnel/lock.py:47-63 | In every run of any number of processes, at most one running tunnel has an alias. |
| TunnelHistory.ATunnelsLife | src/ezhpcy/tunnel/session.py:208-432 | From the events alone: a tunnel runs if and only if it took a lock that nobody had, and has since neither been killed nor let go before its publication or after its withdrawal; its own steps say how far it got. |
| TunnelHistory.LockFilesStay | src/ezhpcy/tunnel/lock.py:47-78 | There is a lock file exactly for each valid alias that somebody began to lock. |
| Tunnels.StartsExactlyWhenFree | src/ezhpcy/tunnel/lock.py:47-63 | A tunnel starts if and only if its alias is valid, no running tunnel has it and no other process holds the lock to ask. |
| Tunnels.StaleBlocksWereLeft | src/ezhpcy/tunnel/ssh_config.py:213-220 | Every block a tunnel wrote names the port its owner serves on, or its owner was killed, failed to withdraw it, or gave up on a step that may still write it. |
| TunnelHistory.WhoMayLeaveABlock | src/ezhpcy/tunnel/ssh_config.py:190-220 | Those are exactly the tunnels that were killed, gave up on their publication, or had a withdrawal fail or take too long. |
| TunnelHistory.TheLastOneStays | src/ezhpcy/tunnel/ssh_config.py:190-238 | Under a name is what the last event that wrote a block there or removed one has left: a tunnel that is killed, or cannot withdraw its block, leaves it. |
| TunnelHistory.TheFirstOneStays | src/ezhpcy/tunnel/ssh_config.py:190-238 | And without any such event, what was there at first. |
| TunnelHistory.AWriteMayComeLate | src/ezhpcy/tunnel/session.py:420-423 | A block may still be written by a tunnel's thread exactly from when it gave up on the publication until that is done, fails, or the process is killed. |
| TunnelHistory.AnUnlinkMayComeLate | src/ezhpcy/tunnel/session.py:415-419 | And one may still be removed exactly from a withdrawal given up on, until the same. |
| Tunnels.AliasesArePlain | src/ezhpcy/config.py:38-46 | A valid alias is safe as a file name and as a Host alias: no pattern, option, path or second word. |
| Tunnels.ReachableUnlessTaken | src/ezhpcy/tunnel/ssh_config.py:190-238 | In every run a serving tunnel has its own block, with its port, if and only if its publication could write it and no prune, late withdrawal or late publication took it since. |
| Tunnels.LostToAnEarlierCheck | src/ezhpcy/tunnel/ssh_config.py:229-236 | A prune that takes a serving tunnel's block had found the lock free before that tunnel took it. |
| Tunnels.LostToAnEarlierTunnel | src/ezhpcy/tunnel/session.py:415-423 | Anything else that takes it is a step of an earlier tunnel of the alias that had not waited for it. |
| Tunnels.NoLiveBlockIsPruned | src/ezhpcy/tunnel/ssh_config.py:223-238 | With check and removal as one step, no prune ever takes the block of a serving tunnel. |
| Tunnels.WrittenBlocksStay | src/ezhpcy/tunnel/ssh_config.py:190-238 | And with nothing late, a serving tunnel has its block with its port at all times if and only if its publication could write it. |
| Tunnels.APruneMayTakeALiveBlock | src/ezhpcy/tunnel/ssh_config.py:229-236 | A run of the code's two steps in which a serving tunnel loses its block. |
| Tunnels.ALateWithdrawalMayTakeALiveBlock | src/ezhpcy/tunnel/session.py:415-419 | A run in which a withdrawal given up on takes the block of the alias's next tunnel. |
| Pruning.Machine.AliasLock | src/ezhpcy/tunnel/lock.py:47-63 | Takes the alias's lock, or is refused at once, without a change, if anybody has it or the alias is not valid. |
| Pruning.Machine.TryLock | src/ezhpcy/tunnel/lock.py:66-78 | Finds the name live exactly if it is an alias and its lock is held; otherwise a lock file that exists is held meanwhile. |
| Pruning.Machine.PublishHost | src/ezhpcy/tunnel/ssh_config.py:190-204 | Puts the tunnel's block in place of whatever had its alias's name, or fails to and changes no block; serves either way. |
| Pruning.Machine.WithdrawHost | src/ezhpcy/tunnel/ssh_config.py:213-220 | Removes the alias's block and no other; a failure only leaves it, and one given up on may still remove it. |
| Pruning.Machine.Visit | src/ezhpcy/tunnel/ssh_config.py:226-237 | One name, with other processes' steps before, during and after the check: removed if and only if nobody had its lock when asked. |
| Pruning.Machine.PruneStale | src/ezhpcy/tunnel/ssh_config.py:223-238 | The loop over the blocks listed: what it removed, and the machine afterwards, with any steps of others in between. |
| Pruning.TheRemovedAreReturned | src/ezhpcy/tunnel/ssh_config.py:223-238 | The names returned are those at the places of the listing whose lock nobody had when their turn came, each place once, in the order of the listing. |
| Pruning.ReturnedExactlyIfFree | src/ezhpcy/tunnel/ssh_config.py:223-238 | A name is returned if and only if it is listed and was, when its turn came, no alias or its lock free. |
| Pruning.PruneRemovesTheStale | src/ezhpcy/tunnel/ssh_config.py:223-238 | After a prune no listed block of a tunnel that had ended is left, unless someone had its lock when the prune came to it. |
| Pruning.PruneRemovesTheUnowned | src/ezhpcy/tunnel/ssh_config.py:223-238 | And so with blocks of tunnels from before, of which nothing is known: a listed one whose lock was free is gone, whatever others did, unless somebody left another file there. |
| Pruning.AQuietPruneIsExact | src/ezhpcy/tunnel/ssh_config.py:223-238 | With nobody else at work, the blocks gone are exactly the listed ones whose lock is free or whose name is no alias; the others and the locks stay as they are. |
| Pruning.AQuietPruneReturnsTheGone | src/ezhpcy/tunnel/ssh_config.py:223-238 | And what is returned are exactly the listed blocks that are gone. |
| Utf8.DecodeSomeOfParts | src/ezhpcy/tunnel/session.py:788-795 | Decoding later input needs of the earlier only the bytes kept back, for every split of the input. |
| Utf8.DecodeIsSomeAndFlush | src/ezhpcy/tunnel/session.py:803 | The incremental decoder and its final call give what decoding all at once does. |
| Utf8.TextReadsBack | src/ezhpcy/tunnel/session.py:788-795 | Every text encoded as RFC 3629 does decodes to itself. |
| Utf8.OnlyTextReadsClean | src/ezhpcy/scheduler/base.py:227 | Bytes that decode without a replacement are the encoding of what they decode to: no overlong forms or surrogates get through. |
| Utf8.OneReplacementAsFarAsItGoes | src/ezhpcy/scheduler/base.py:227 | Where no character is, one replacement stands for as many bytes as begin one, or else for one byte. |
| Utf8.IncrementalDecoder.DecodeNext | src/ezhpcy/tunnel/session.py:795 | After each call what was returned so far is what all the input so far decodes to, but for an incomplete end. |
| Utf8.IncrementalDecoder.Finish | src/ezhpcy/tunnel/session.py:803 | The final call adds what is missing: at most one replacement character. |
| JobOutput.TheLeftmostIsFound | src/ezhpcy/scheduler/lsf.py:11 | The search finds an ID if and only if the text has one anywhere, and then the leftmost. |
| JobOutput.FoundStands | src/ezhpcy/scheduler/lsf.py:11 | More output never changes the ID found: no match can begin before it and end later. |
| JobOutput.FoundInPart | src/ezhpcy/scheduler/base.py:226-229 | The ID found in the bytes read so far, even cut inside a character, is the one in the whole output. |
| JobOutput.ReadJobId | src/ezhpcy/scheduler/base.py:219-244 | For every cut into chunks: an ID is returned if and only if the whole output has one, it is the leftmost, and the output passed on is all that was read. |
| JobOutput.SplitParts | src/ezhpcy/tunnel/session.py:795 | Splitting later text needs of the earlier only its last line. |
| JobOutput.SplitsIntoLines | src/ezhpcy/tunnel/session.py:795 | The lines joined again are the text, and none has a newline in it. |
| JobOutput.LinesMakeUpTheText | src/ezhpcy/tunnel/session.py:792-804 | The lines logged, each ended, make up the text, with its last line ended. |
| JobOutput.LogJobOutput | src/ezhpcy/tunnel/session.py:781-804 | The lines logged are those of the whole decoded output, without an empty one at the end, however it comes in chunks. |
| JobOutput.FollowJob | src/ezhpcy/scheduler/base.py:97-107 | Submission and log together: no byte is lost between them, wherever the ID was found. |
| Replay.Handler.Emit | src/ezhpcy/logging.py:200-208 | After every record, what the target was handed is what the whole trace declares: each record at its level, and before each error the last `capacity` of the lower ones to be kept since the error before, each once and in order. |
| Replay.ReplayedIsUnique | src/ezhpcy/logging.py:185-208 | That declaration has only one solution. |
| Replay.KeepOne | src/ezhpcy/logging.py:198-203 | The bounded queue holds exactly the last `capacity` records to be kept since the last error. |
| Replay.ShowKept | src/ezhpcy/logging.py:205-208 | An error brings out what is kept, before itself, and none of it again. |
| LogFilter.NothingIsMissed | src/ezhpcy/logging.py:110-145 | A record that the logger's level, the output level or asyncssh's detachment leaves out would have changed neither what the terminal or the file writes nor what is kept. |
| LogFilter.ExactlyAboveNotset | src/ezhpcy/logging.py:378-423 | That holds for all records if and only if the file's level is not NOTSET. |
| LogFilter.RunsWriteTheSame | src/ezhpcy/logging.py:288-423 | Over whole runs, with the settings changed on the way, terminal, files and kept records are those of handing every record to every handler. |
| LogFilter.WhatIsWritten | src/ezhpcy/logging.py:110-145 | With settings that stay, the file gets every record at its level and the terminal what its replay hands on, each without asyncssh's records unless it shows them. |
| LogFilter.TheTerminalBeginsAnew | src/ezhpcy/logging.py:309-334 | After the terminal is configured it gets what a replay that begins then hands on: nothing kept before comes out any more. |
| LogFilter.AnotherFileBegins | src/ezhpcy/logging.py:349-366 | Another file gets the records from then on and leaves the one before as it was, while the terminal goes on with what it kept. |
| LogFilter.NothingIsWrittenBefore | src/ezhpcy/logging.py:378-423 | Before anything is configured nothing is written or kept. |
| LogFilter.Loggers.UpdateHandlers | src/ezhpcy/logging.py:378-423 | Sets handlers, output level, package level and asyncssh's handler to what the current settings call for. |
| LogFilter.Loggers.ConfigureLogging | src/ezhpcy/logging.py:309-334 | Changes the terminal's settings and drops what was kept, and nothing else. |
| LogFilter.Loggers.ConfigureLogFile | src/ezhpcy/logging.py:349-366 | Begins another file, or none, and leaves the terminal and what is kept as they are. |
| LogFilter.Loggers.Log | src/ezhpcy/logging.py:110-145 | Logging a record, with all its filters, writes what handing it to every handler writes. |
| OutputThread.FlushedMeansWritten | src/ezhpcy/console.py:149-160 | A flush whose event is set came after every call handed over before it, and calls are made in order and once. |
| OutputThread.RunsKeep | src/ezhpcy/console.py:76-112 | In every run the calls made and those waiting are those handed over, and at most one display is started and not stopped: the one shown. |
| OutputThread.DisplaysAreKeptDrawn | src/ezhpcy/console.py:76-96 | In every run: the display shown, unless the turn's call hides it, is drawn again at every turn at which that is due, and is taken down if it fails. |
| OutputThread.DrawnWhenShown | src/ezhpcy/console.py:98-106 | A display is drawn as it is shown, unless one is up or it was the last to fail. |
| OutputThread.ADisplayIsUpOrHasFailed | src/ezhpcy/console.py:98-112 | For users whose pauses end within the display's block: a display last asked to be shown is up, or has failed to draw. |
| OutputThread.AFailedDisplayIsNotDrawnNext | src/ezhpcy/console.py:90-106 | A display that failed to draw is drawn again only if another has failed since. |
| OutputThread.AFailedDisplayIsNeverDrawnAgain | src/ezhpcy/console.py:71-73 | And never, for all users of the functions whose pauses end within the display's block. |
| OutputThread.NothingIsUpWhilePaused | src/ezhpcy/console.py:204-221 | For those, from a pause's flush on no display is up, until a pause or the display's block ends. |
| OutputThread.ANestedPauseShowsTheDisplay | src/ezhpcy/console.py:204-221 | For others: with a pause inside another the display is back before the outer one ends. |
| OutputThread.NoDisplayOutlivesItsBlock | src/ezhpcy/console.py:195-201 | For those, no display is up once its block has ended and the queue is empty. |
| OutputThread.ALatePauseLeavesTheDisplay | src/ezhpcy/console.py:211-221 | For others: a pause that ends after the display's block leaves the display up for good. |
| Displays.EveryRunIsSteps | src/ezhpcy/console.py:139-228 | Whatever users of the functions do comes to calls handed over and turns of the thread, which the next results are about. |
| Displays.DrawnAgainExactlyIfShownBetween | src/ezhpcy/console.py:66-106 | For all calls handed over: some run draws a display again after it failed to draw if and only if it is to be shown twice, with another display in between. |
| Displays.LeftUpExactlyIfShownLast | src/ezhpcy/console.py:98-112 | For all calls handed over: some run makes them all and leaves a display up if and only if the last call about it is to show it. |
| Displays.ALatePauseDrawsAFailedDisplayAgain | src/ezhpcy/console.py:204-221 | A run in which a pause ends in the next display's block and has a failed display drawn again. |
| Prompts.EveryRunIsNested | src/ezhpcy/cli/utils/prompt.py:17-34 | In every run of the program, cut off anywhere, pauses end within the block of the display they hide. |
| Prompts.AFailedDisplayIsGone | src/ezhpcy/console.py:71-73 | In no run of the program is a display drawn again that failed to. |
| Prompts.NoDisplayIsLeft | src/ezhpcy/cli/tunnel.py:289-290 | In no run of the program is a display up outside its block once what was handed over is written. |
| Prompts.APromptHasTheTerminal | src/ezhpcy/cli/utils/prompt.py:28-34 | From when a prompt appears until it is answered, all output from before is written and no display is up, whatever other threads do. |
| Prompts.TheDisplayComesBack | src/ezhpcy/console.py:204-221 | In every run of the program, between prompts and inside the display's block, once all is written the display is up, unless it failed to draw or was hidden for good. |
| Console.Output.TakeTurn | src/ezhpcy/console.py:76-96 | A turn of the thread's loop makes the next call, if it got one, and redraws if due. |
| Console.Output.ShowDisplay | src/ezhpcy/console.py:98-106 | Shows a display only if none is shown, it was not the last to fail, and it can be drawn. |
| Console.Output.FlushOutput | src/ezhpcy/console.py:149-160 | True means that all that was handed over before is written; false only that the flush's own event was not set in time, so that some, none or all of it may be; from the output thread, the answer is true at once and means nothing. |
| Console.Output.PauseDisplay | src/ezhpcy/console.py:204-217 | Hands over the hiding of the display, and then the flush it waits for. |
| Profiles.InheritanceChain | src/ezhpcy/config.py:192-208 | Ends for every configuration; gives a chain of distinct, linked profiles if and only if following `inherit` comes to one without; otherwise the error that fits. |
| Profiles.ChainIsUnique | src/ezhpcy/config.py:192-208 | A profile has at most one chain. |
| Profiles.ResolveProfile | src/ezhpcy/config.py:152-169 | Resolves if and only if there is a chain, to the chain's layers laid over each other with the top-level table below. |
| Profiles.TheNearestSetsIt | src/ezhpcy/config.py:157-167 | Every field of a sub-config has the value of the nearest profile in the chain that sets it, else the top-level table's, else none. |
| Profiles.TheNearestSetsItPlain | src/ezhpcy/config.py:162-167 | And so has a setting that is not a table's. |
| Profiles.TheOriginIsWhereItCameFrom | src/ezhpcy/cli/config/show.py:56-119 | The origin that `config show` prints, found by a search of its own, is the layer whose value it shows; a default is shown as one if and only if no layer sets the field. |
| Profiles.ThePlainOriginIsWhereItCameFrom | src/ezhpcy/cli/config/show.py:56-108 | And so with a setting that is not a table's, such as the description: shown as configured if and only if a profile in the chain sets it, and with the nearest one's name. |
| Connect.ConnectInteractive | src/ezhpcy/cli/utils/ssh.py:52-117 | The loop ends after at most five attempts, three password prompts and one about the host key; asks for no password if the profile has one or prompting is off, and about no known host. From the attempts and replies alone: which attempt is the last, what comes of it, with which passwords it tried; and `PermissionDenied` if and only if the last attempt was denied and there is a password, prompting is off, none was offered, or three were asked for. |
| Connect.TryOnce | src/ezhpcy/cli/utils/ssh.py:79-105 | What each way an attempt can end leads to. |
| Connect.InteractiveClient.ValidateHostPublicKey | src/ezhpcy/cli/utils/ssh.py:218-234 | An untrusted key of a known host counts as changed, and of any other as unknown. |
| Connect.AcceptHostKey | src/ezhpcy/cli/utils/ssh.py:253-295 | An accepted host is known from then on, on its port, or on every port if that is the default one; no other host becomes known by it; and a refused one changes nothing. |
| Connect.KnownHosts.AddMakesItKnown | src/ezhpcy/cli/utils/ssh.py:176-199 | Adding the accepted key's line makes the host known, with the default port and with any other. |
| Connect.KnownHosts.AddMakesOnlyItKnown | src/ezhpcy/cli/utils/ssh.py:176-199 | And makes no other known, nor this one on another port, unless the key was accepted for the default port. |
| Connect.AcceptedForItsPort | src/ezhpcy/cli/utils/ssh.py:253-295 | The line written for a host and port matches another host and port if and only if the host is the same and the port too, or the line is for port 22. |
| Connect.AppendsOneLine | src/ezhpcy/cli/utils/ssh.py:298-308 | Appending to the known hosts file adds one line and keeps the others, whether or not its last line was ended. |
| Forwarding.ForwardedPort.Count | src/ezhpcy/ssh.py:313-316 | The reported count changes by one at a time and is never negative. |
| Forwarding.Forwarder.ConnectionMade | src/ezhpcy/ssh.py:331-338 | A connection is counted once it is made, and not read while its channel is being opened; the count is that of the connections made and not closed. |
| Forwarding.Forwarder.Close | src/ezhpcy/ssh.py:367-371 | Takes a connection out of the count once, however often and from whichever end it is closed, and closes the other end if they are linked. |
| Forwarding.Forwarder.ClientLost | src/ezhpcy/ssh.py:367-371 | A client that hangs up, at any time, is counted out at most once. |
| Forwarding.Forwarder.ChannelLost | src/ezhpcy/ssh.py:343-348 | A lost channel closes its client's connection. |
| Forwarding.Forwarder.EndOpening | src/ezhpcy/ssh.py:350-365 | Once the opening is over both ends are open and exchange data, or both are closed: no channel stays open for a client that is gone. |

## Left out

- The second Ctrl+C's exit on the spot: in `Tunnels` it is a killed process; in `Session` a Ctrl+C after the first is one more call of `stop`.
- Interactive timeouts: `asyncio.timeout` in the queue, status and endpoint waits appears as a failure of what the main task awaits.
- `_wait_for_ready_port` and `_wait_for_worker_endpoint`: their own pacing and messages; a status that says the worker is gone appears as a failure.
- A publication or submission given up on that takes effect after the process has gone on: the machine lets it happen, and the results exclude it by name.
- `probe_hosts`, `resolution_problem`, `check_host_resolution`: they ask OpenSSH, which is not modelled.
- Private directories and permissions, and the temporary file of a Host block: one atomic step.
- Watchdog scans that overlap two publications: a scan is one step here. What the watchdog does after its loop, and the exit statuses of the worker's script.
- Shell integers are unbounded; white space and digits in the control directory are ASCII. Outside ASCII, `isdigit` accepts characters, such as superscripts, that `int` refuses with an error that `read_status` does not turn into its own. Python's limit on the length of a number is left out too.
- The PBS job ID: its pattern also matches at the end of what has been read so far, so it depends on the chunks. Batch submissions' parsers.
- `_as_displayed`: escape sequences and carriage returns of a logged line.
- Tracebacks (`_DebugDetail`'s other half), message templates, and records that cannot be resolved; the flushes between two logging configurations, which are taken to succeed; log file names, rotation and relabelling; asyncssh's records other than INFO.
- When a redraw is due: the world decides.
- Pydantic's validation and defaults; a field that no layer sets is None here. The order of the settings shown, and their rendering as TOML.
- Connect.ConnectInteractive: takes asyncssh to ask about the same host and port at every attempt; otherwise nothing bounds the prompts about keys.
- How an attempt to connect goes, asyncssh's matching of patterns and hashed names (a line is the set of names it matches), the host key algorithms asked for, and saving the accepted line.
- Data through a forwarded connection, and the listener's own life beyond being open.
- `select_ports`, `client_alive`, walltimes, memory rounding, scheduler commands and their state tables, key generation, provisioning, `doctor`, `info`, help and the status panel: they would add only easy members.
