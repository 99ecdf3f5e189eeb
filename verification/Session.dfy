/**
 One tunnel, from its alias's lock to the last of its cleanup: `TunnelSession.run`
 and what it shares the event loop with, as a machine whose steps are the
 stretches between awaits. The other modules named
 after it have the proofs, and `Tunnel` the class.
 */
module Session {
  import opened Prelude
  import F = Finishing

  type JobId = string

  datatype Mode = Batch | Interactive

  datatype JobState = Pending | Running | Suspended | Succeeded | Failed | Gone | Unknown
  {
    predicate Terminal() {
      Succeeded? || Failed? || Gone?
    }
  }

  /** The session's background tasks. */
  datatype Task = Watcher | Output | Heartbeats | Monitor

  /** The cleanup steps, as pushed on the exit stack. */
  datatype Cleanup =
    | ReleaseLock
    | CloseLogin
    | StopTask(task: Task)
    | CloseSftp
    | RemoveControl
    | CloseShell
    | CancelJob(id: JobId)
    | ClosePort
    | Withdraw

  /** How a cleanup step went: `Fine` if it did what it is for. */
  datatype Outcome = Fine | Broken | TimedOut

  /** A cleanup step that was run, or cut short by a cancellation; and then what it did by then. */
  datatype Ran = Ran(step: Cleanup, outcome: Outcome) | Cut(step: Cleanup, outcome: Outcome)

  datatype Error =
    | Failure(code: nat)         // whatever a step or a background task raised
    | ConnectionLost
    | JobOver(state: JobState)
    | StrangeState
    | KeyboardInterrupt          // these two are no errors to stop with: they only pass through
    | CancelledError

  datatype Why = CtrlC | JobEnded(state: JobState) | Because(error: Error)

  datatype Phase = Connecting | Preparing | Submitting | Queued | Starting | Serving | Stopping
  {
    function Rank(): nat {
      match this
      case Connecting => 0
      case Preparing => 1
      case Submitting => 2
      case Queued => 3
      case Starting => 4
      case Serving => 5
      case Stopping => 6
    }
  }

  /** What the main task waits for. Only while connecting may it ask the user. */
  datatype At =
    | Begin
    | ConnectAt
    | PrepareAt
    | SftpAt
    | GatherAt
    | LeaseAt
    | SubmitAt
    | CommandAt
    | JobAt
    | PortAt
    | EndpointAt
    | ForwardAt
    | PublishAt
    | ServeAt
    | Unwinding
    | Ended
  {
    /** In `_start`, or serving: where a stop cancels the main task. */
    predicate Awaiting() {
      Begin != this && Unwinding != this && Ended != this
    }
  }

  /** One of the two directories made next to the control directory. */
  datatype Sibling = Making | Made | Unmade

  /** What is under the alias's name on disk: nothing, a block of an earlier tunnel, or this one's. */
  datatype HostBlock = NoBlock | Stale | Own

  /**
   What the session holds, in its process and elsewhere. `login` stays false once the
   connection is `lost`. `stray` is a socket that listens for the tunnel's port before
   whoever asked for it has it. `tasks` are the background tasks that have not ended.
   */
  datatype World = World(
    lock: bool,
    login: bool,
    lost: bool,
    sftp: bool,
    control: bool,
    shell: bool,
    port: bool,
    stray: bool,
    block: HostBlock,
    tasks: set<Task>)

  /**
   Why the tunnel stops, and what came of it: the session's `_why`, `_error` and
   `_cancelled_main_task`, its status's phase, and whether the main task still has
   a cancellation coming; and the exception that the exit stack passes on, if it is
   one that `run` does not catch. As history, the calls of `_stop`, how often the main
   task was cancelled, and what `run` raised.
   */
  datatype Halt = Halt(
    why: Option<Why>,
    error: Option<Error>,
    cancelledMain: bool,
    pending: bool,
    passing: Option<Error>,
    phase: Phase,
    stops: seq<(Option<Error>, Why)>,
    cancels: nat,
    raised: Option<Error>)

  /** The exit stack; and, in order, all that was registered on it, and all that has run. */
  datatype Exits = Exits(stack: seq<Cleanup>, registered: seq<Cleanup>, ran: seq<Ran>)

  /**
   The `gather` that makes the control directory and its siblings, and the steps that
   `_finish` waits for. `loose`: the main task left the `gather` before the control
   directory's creation was over.
   */
  datatype Waits = Waits(
    siblings: (Sibling, Sibling),
    creating: Option<F.Finish<()>>,
    submitting: Option<F.Finish<JobId>>,
    publishing: Option<F.Finish<()>>,
    loose: bool)

  /**
   The job's ID, once the session has it, and `_job_finished`. As history, the job
   states the session processed, the cancellations it requested, and the states it
   had processed when it was the cancellation's turn.
   */
  datatype JobRecord = JobRecord(
    id: Option<JobId>,
    finished: bool,
    inspected: seq<JobState>,
    bkills: seq<JobId>,
    inspectedAtCancel: Option<seq<JobState>>)

  datatype State = State(
    mode: Mode,
    at: At,
    ready: bool,
    halt: Halt,
    exits: Exits,
    waits: Waits,
    job: JobRecord,
    w: World)

  datatype Event =
    | TakeLock(free: bool)                       // the main task starts
    | Proceed                                    // what the main task awaits succeeded
    | ShellOpened(id: JobId)                     // an interactive submission returned its job
    | Fail(code: nat)                            // what it awaits raised
    | Deliver                                    // it resumes with the cancellation
    | PromptInterrupted                          // Ctrl+C at a prompt, which raises it there
    | Turn                                       // it resumes in `_finish` or in `gather`
    | Polled(state: JobState, hosted: bool)      // its own query of the job returned
    | SiblingEnds(first: bool, made: bool)
    | Creation(creation: F.Event<()>)            // around `control.create()`
    | ControlAppears                             // its `mkdir` takes effect
    | Submission(submission: F.Event<JobId>)     // around `scheduler.submit()`
    | Publication(publication: F.Event<()>)      // around `publish_host`
    | BlockAppears                               // its thread writes the Host block
    | Listens                                    // `create_server` does, and is to resume once more
    | Interrupt                                  // Ctrl+C
    | LoseLogin                                  // the login connection is lost
    | WatcherSees                                // the watcher's turn, after that
    | TaskFails(task: Task, code: nat)
    | TaskEnds(task: Task)
    | MonitorPolled(state: JobState)
    | CleanUp(outcome: Outcome)                  // the next cleanup step is over
    | BlockGoes                                  // the user, or a withdrawal given up on, removes it
    | OldBlock                                   // an earlier tunnel of the alias leaves one, or writes one late
    | Exit                                       // no cleanup step is left

  function Init(mode: Mode): State {
    State(
      mode, Begin, false,
      Halt(None, None, false, false, None, Connecting, [], 0, None),
      Exits([], [], []),
      Waits((Making, Making), None, None, None, false),
      JobRecord(None, false, [], [], None),
      World(false, false, false, false, false, false, false, false, NoBlock, {}))
  }

  // Stopping

  /** `_report`: once stopping, the phase stays. */
  function Report(h: Halt, phase: Phase): Halt {
    if h.phase == Stopping then h else h.(phase := phase)
  }

  /** `_blame`: once the connection is lost, it is to blame. */
  function Blame(lost: bool, error: Error): Error {
    if lost then ConnectionLost else error
  }

  /** `_stop`, but for the main task's cancellation: the first call decides. */
  function Decide(h: Halt, error: Option<Error>, why: Why): Halt {
    var h := h.(stops := h.stops + [(error, why)]);
    if h.why.Some? then h else h.(why := Some(why), error := error, phase := Stopping)
  }

  function CancelMain(h: Halt): Halt {
    h.(cancels := h.cancels + 1, cancelledMain := true, pending := true)
  }

  /**
   What the main task awaits is told of its cancellation at once: a `_finish`, or the
   children of a `gather` that is not over yet. Anything else hears of it when the
   task resumes.
   */
  function TellCancelled(waits: Waits, at: At): Waits {
    match at
    case GatherAt => if GatherOver(waits) then waits else CancelChildren(waits)
    case SubmitAt => waits.(submitting := Told(waits.submitting))
    case PublishAt => waits.(publishing := Told(waits.publishing))
    case _ => waits
  }

  function Told<T>(f: Option<F.Finish<T>>): Option<F.Finish<T>> {
    if f.Some? then Some(F.Advance(f.value, F.Cancel)) else None
  }

  function CancelChildren(waits: Waits): Waits {
    waits.(
      siblings := (Cancelled(waits.siblings.0), Cancelled(waits.siblings.1)),
      creating := Told(waits.creating))
  }

  function Cancelled(sibling: Sibling): Sibling {
    if sibling == Making then Unmade else sibling
  }

  predicate AllMade(waits: Waits) {
    && waits.siblings == (Made, Made)
    && waits.creating.Some?
    && waits.creating.value.at == F.Returned
  }

  /**
   `asyncio.gather` is over once every child has succeeded, or as soon as one has
   failed or was cancelled, whatever the others are doing.
   */
  predicate GatherOver(waits: Waits) {
    || waits.siblings.0 == Unmade
    || waits.siblings.1 == Unmade
    || (waits.creating.Some? && waits.creating.value.Ended() && waits.creating.value.at != F.Returned)
    || AllMade(waits)
  }

  /** `_stop`, called outside the main task. */
  function Stop(s: State, error: Option<Error>, why: Why): State {
    if s.halt.why.Some? then s.(halt := Decide(s.halt, error, why))
    else s.(halt := CancelMain(Decide(s.halt, error, why)), waits := TellCancelled(s.waits, s.at))
  }

  /** The main task leaves `_start`, or stops serving, for the cleanup. */
  function Unwind(s: State): State {
    s.(at := Unwinding, halt := s.halt.(pending := false))
  }

  /** `run`'s handler of an exception. */
  function MainFails(s: State, error: Error): State {
    var blamed := Blame(s.w.lost, error);
    Unwind(s.(halt := Decide(s.halt, Some(blamed), Because(blamed))))
  }

  // Registering cleanup

  function Push(x: Exits, steps: seq<Cleanup>): Exits {
    x.(stack := x.stack + steps, registered := x.registered + steps)
  }

  lemma PushTwice(x: Exits, steps: seq<Cleanup>, more: seq<Cleanup>)
    ensures Push(Push(x, steps), more) == Push(x, steps + more)
  {
    assert x.stack + steps + more == x.stack + (steps + more);
    assert x.registered + steps + more == x.registered + (steps + more);
  }

  lemma PushBoth(x: Exits, step: Cleanup, next: Cleanup)
    ensures Push(Push(x, [step]), [next]) == Push(x, [step, next])
  {
    PushTwice(x, [step], [next]);
    assert [step] + [next] == [step, next];
  }

  function StartTask(w: World, task: Task): World {
    w.(tasks := w.tasks + {task})
  }

  // The main task's turns

  function TakesLock(s: State, free: bool): State {
    if !free then MainFails(s, Failure(0))
    else s.(w := s.w.(lock := true), exits := Push(s.exits, [ReleaseLock]), at := ConnectAt)
  }

  function Connects(s: State): State {
    s.(
      w := StartTask(s.w.(login := true), Watcher),
      exits := Push(s.exits, [CloseLogin, StopTask(Watcher)]),
      halt := Report(s.halt, Preparing),
      at := PrepareAt)
  }

  function OpensSftp(s: State): State {
    s.(
      w := s.w.(sftp := !s.w.lost),
      exits := Push(s.exits, [CloseSftp, RemoveControl]),
      waits := s.waits.(creating := Some(F.Start())),
      at := GatherAt)
  }

  function StartsSubmission(s: State): State {
    s.(
      halt := Report(s.halt, Submitting),
      waits := s.waits.(submitting := if s.mode == Batch then Some(F.Start()) else None),
      at := SubmitAt)
  }

  /** An interactive submission returned its job. */
  function OpensShell(s: State, id: JobId): State {
    s.(
      w := StartTask(s.w.(shell := true), Output),
      exits := Push(s.exits, [CloseShell, StopTask(Output), CancelJob(id)]),
      job := s.job.(id := Some(id)),
      halt := Report(s.halt, Queued),
      at := CommandAt)
  }

  function LearnsPort(s: State): State {
    s.(
      w := StartTask(s.w, Heartbeats),
      exits := Push(s.exits, [StopTask(Heartbeats)]),
      at := EndpointAt)
  }

  /** A listener made once the connection is lost is closed with it. */
  function Forwards(s: State): State {
    s.(
      w := s.w.(port := !s.w.lost, stray := false),
      exits := Push(s.exits, [ClosePort, Withdraw]),
      waits := s.waits.(publishing := Some(F.Start())),
      at := PublishAt)
  }

  /** What the main task awaited directly succeeded. */
  function Proceeds(s: State): State {
    match s.at
    case ConnectAt => Connects(s)
    case PrepareAt => s.(at := SftpAt)
    case SftpAt => OpensSftp(s)
    case LeaseAt => StartsSubmission(s)
    case CommandAt => s.(at := JobAt)
    case PortAt => LearnsPort(s)
    case EndpointAt => s.(at := ForwardAt)
    case ForwardAt => Forwards(s)
    case _ => s
  }

  /** Awaits a step directly, so that a failure, or the cancellation, is raised there. */
  predicate Direct(s: State) {
    s.at.Awaiting() && s.at != GatherAt && s.at != PublishAt && !(s.at == SubmitAt && s.mode == Batch)
  }

  /**
   The interrupt passes both of `run`'s handlers: no stop, but straight to the cleanup of
   what there is so far, which is the lock.
   */
  function Interrupts(s: State): State {
    s.(at := Unwinding, halt := s.halt.(passing := Some(KeyboardInterrupt)))
  }

  predicate AtPrompt(s: State) {
    s.at == ConnectAt && !s.halt.pending
  }

  /** What it awaits may raise an error: all but a listener that it is about to be given. */
  predicate MayFail(s: State) {
    Direct(s) && s.at != ServeAt && !(s.at == ForwardAt && s.w.stray)
  }

  /** `_job_ended`, before what it tells its caller. */
  function Inspects(job: JobRecord, state: JobState): JobRecord {
    job.(inspected := job.inspected + [state], finished := job.finished || state.Terminal())
  }

  predicate Polling(s: State) {
    s.at == JobAt || s.at == PortAt || s.at == EndpointAt
  }

  function Polls(s: State, state: JobState, hosted: bool): State {
    // A running job is returned before it is asked whether it has ended.
    var s := s.(job := Inspects(s.job, state));
    if s.at == JobAt && state == Running && hosted then
      s.(halt := Report(s.halt, Starting), at := PortAt)
    else if state == Unknown then MainFails(s, StrangeState)
    else if state.Terminal() then MainFails(s, JobOver(state))
    else s
  }

  /** The main task's turn in `gather`. */
  function GatherTurn(s: State): State {
    if !GatherOver(s.waits) then s
    else if AllMade(s.waits) && !s.halt.pending then s.(at := LeaseAt)
    else
      var s := s.(waits := s.waits.(loose := s.waits.creating.Some? && s.waits.creating.value.step.Busy?));
      if s.halt.pending then Unwind(s) else MainFails(s, Failure(1))
  }

  /** The main task's turn in the submission's `_finish`, whose `then` registers the cancellation. */
  function SubmitTurn(s: State): State
    requires s.waits.submitting.Some?
  {
    var f := F.Resumed(s.waits.submitting.value);
    var s := s.(waits := s.waits.(submitting := Some(f)));
    match f.at
    case Shielded => s
    case Waiting => s.(halt := s.halt.(pending := false))
    case Returned => CancelOnCleanup(s, f).(halt := Report(s.halt, Queued), at := JobAt)
    case Raised => MainFails(s, Failure(2))
    case _ => Unwind(CancelOnCleanup(s, f))
  }

  function CancelOnCleanup(s: State, f: F.Finish<JobId>): State {
    if f.calls == [] then s
    else
      var id := f.calls[|f.calls| - 1];
      s.(exits := Push(s.exits, [CancelJob(id)]), job := s.job.(id := Some(id)))
  }

  /** The main task's turn in the publication's `_finish`. */
  function PublishTurn(s: State): State
    requires s.waits.publishing.Some?
  {
    var f := F.Resumed(s.waits.publishing.value);
    var s := s.(waits := s.waits.(publishing := Some(f)));
    match f.at
    case Shielded => s
    case Waiting => s.(halt := s.halt.(pending := false))
    case Returned => Serves(s)
    case Raised => MainFails(s, Failure(3))
    case _ => Unwind(s)
  }

  function Serves(s: State): State {
    s.(
      w := StartTask(s.w, Monitor),
      exits := Push(s.exits, [StopTask(Monitor)]),
      ready := true,
      halt := Report(s.halt, Serving),
      at := ServeAt)
  }

  function Turns(s: State): State {
    if s.at == GatherAt then GatherTurn(s)
    else if s.at == SubmitAt && s.waits.submitting.Some? then SubmitTurn(s)
    else if s.at == PublishAt && s.waits.publishing.Some? then PublishTurn(s)
    else s
  }

  // What happens around the main task

  function EndSibling(waits: Waits, first: bool, made: bool): Waits {
    var now := if made then Made else Unmade;
    if waits.creating.None? then waits
    else if first && waits.siblings.0 == Making then waits.(siblings := (now, waits.siblings.1))
    else if !first && waits.siblings.1 == Making then waits.(siblings := (waits.siblings.0, now))
    else waits
  }

  /** The creation ends, or its `gather` child's time runs out, or the child gets a turn. */
  function Create(waits: Waits, e: F.Event<()>): Waits {
    if waits.creating.None? || e.Cancel? then waits
    else waits.(creating := Some(F.Advance(waits.creating.value, e)))
  }

  function Submit(waits: Waits, e: F.Event<JobId>): Waits {
    if waits.submitting.None? || e.Cancel? || e.Resume? then waits
    else waits.(submitting := Some(F.Advance(waits.submitting.value, e)))
  }

  function Publish(waits: Waits, e: F.Event<()>): Waits {
    if waits.publishing.None? || e.Cancel? || e.Resume? then waits
    else waits.(publishing := Some(F.Advance(waits.publishing.value, e)))
  }

  predicate UnderWay<T>(f: Option<F.Finish<T>>) {
    f.Some? && f.value.step.Busy?
  }

  function Lose(w: World): World {
    if w.login then w.(login := false, lost := true, sftp := false, port := false) else w
  }

  function EndTask(w: World, task: Task): World {
    w.(tasks := w.tasks - {task})
  }

  function WatcherTurn(s: State): State {
    if Watcher in s.w.tasks && s.w.lost then
      Stop(s, Some(ConnectionLost), Because(ConnectionLost)).(w := EndTask(s.w, Watcher))
    else s
  }

  /** `_stop_on_failure` */
  function TaskFailure(s: State, task: Task, error: Error): State {
    if task in s.w.tasks then
      var blamed := Blame(s.w.lost, error);
      Stop(s, Some(blamed), Because(blamed)).(w := EndTask(s.w, task))
    else s
  }

  function MonitorTurn(s: State, state: JobState): State {
    if Monitor !in s.w.tasks then s
    else
      var s := s.(job := Inspects(s.job, state));
      if state == Unknown then TaskFailure(s, Monitor, StrangeState)
      else if state.Terminal() then Stop(s, None, JobEnded(state)).(w := EndTask(s.w, Monitor))
      else s
  }

  // Cleaning up

  /** What a cleanup step that did what it is for undoes. */
  function Undo(w: World, step: Cleanup): World {
    match step
    case ReleaseLock => w.(lock := false)
    case CloseLogin => w.(login := false, sftp := false, port := false)
    case StopTask(task) => EndTask(w, task)
    case CloseSftp => w.(sftp := false)
    case RemoveControl => w.(control := false)
    case CloseShell => w.(shell := false)
    case CancelJob(_) => w
    case ClosePort => w.(port := false)
    case Withdraw => w.(block := NoBlock)
  }

  /**
   What running a cleanup step does, as `_cleanup` and `_stop_task` run it. An
   interactive job's shell is closed with it, and before, when its output task is
   to stop and the job has not ended.
   */
  function Effect(w: World, step: Cleanup, outcome: Outcome, finished: bool): World {
    var w := if outcome == Fine then Undo(w, step) else w;
    if step == CloseShell || (step == StopTask(Output) && !finished) then w.(shell := false) else w
  }

  /** `_cancel_job` */
  function Bkill(job: JobRecord, id: JobId): JobRecord {
    job.(
      inspectedAtCancel := Some(job.inspected),
      bkills := if job.finished then job.bkills else job.bkills + [id])
  }

  /** How the step's turn went: a cancellation still to come is delivered to it, and only to it. */
  function TurnOf(h: Halt, step: Cleanup, outcome: Outcome): Ran {
    if h.pending then Cut(step, outcome) else Ran(step, outcome)
  }

  /** The cancellation is passed on, as `_cleanup` catches no such thing. */
  function PassesOn(h: Halt): Halt {
    if h.pending then h.(pending := false, passing := Some(CancelledError)) else h
  }

  /** The last step registered is over, and off the stack, however it went. */
  function CleansUp(s: State, outcome: Outcome): State
    requires s.exits.stack != []
  {
    var x := s.exits;
    var step := x.stack[|x.stack| - 1];
    s.(
      halt := PassesOn(s.halt),
      exits := x.(stack := x.stack[..|x.stack| - 1], ran := x.ran + [TurnOf(s.halt, step, outcome)]),
      job := if step.CancelJob? then Bkill(s.job, step.id) else s.job,
      w := Effect(s.w, step, outcome, s.job.finished))
  }

  function Leaves(s: State): State {
    s.(at := Ended, halt := s.halt.(raised := if s.halt.passing.Some? then s.halt.passing else s.halt.error))
  }

  /**
   An event at which the main task gets a turn, before the cleanup. One that comes out of turn changes
   nothing, such as the result of what the main task awaits when it awaits something
   else, or has a cancellation to hear of first.
   */
  function MainNext(s: State, e: Event): State {
    match e
    case Proceed => if s.halt.pending then s else Proceeds(s)
    case ShellOpened(id) =>
      if s.at == SubmitAt && s.mode == Interactive && !s.halt.pending then OpensShell(s, id) else s
    case Fail(code) => if MayFail(s) then MainFails(s, Failure(code)) else s
    case Deliver => if Direct(s) && s.halt.pending then Unwind(s) else s
    case PromptInterrupted => if AtPrompt(s) then Interrupts(s) else s
    case Turn => Turns(s)
    case Polled(state, hosted) => if Polling(s) && !s.halt.pending then Polls(s, state, hosted) else s
    case _ => s
  }

  /** A cleanup step is over, or none is left. */
  function CleanupNext(s: State, e: Event): State {
    if s.at != Unwinding then s
    else if s.exits.stack == [] then if e.Exit? then Leaves(s) else s
    else if e.CleanUp? then CleansUp(s, e.outcome)
    else s
  }

  /** An event around the main task. */
  function AroundNext(s: State, e: Event): State {
    match e
    case SiblingEnds(first, made) => s.(waits := EndSibling(s.waits, first, made))
    case Creation(creation) => s.(waits := Create(s.waits, creation))
    case ControlAppears => if UnderWay(s.waits.creating) then s.(w := s.w.(control := true)) else s
    case Submission(submission) => s.(waits := Submit(s.waits, submission))
    case Publication(publication) => s.(waits := Publish(s.waits, publication))
    case BlockAppears => if UnderWay(s.waits.publishing) then s.(w := s.w.(block := Own)) else s
    case Listens => if s.at == ForwardAt && !s.halt.pending then s.(w := s.w.(stray := true)) else s
    case LoseLogin => s.(w := Lose(s.w))
    case BlockGoes => s.(w := s.w.(block := NoBlock))
    case _ => s
  }

  /** With no step left to clean up, `run` ends before anything else gets a turn. */
  predicate Ending(s: State) {
    s.at == Ended || (s.at == Unwinding && s.exits.stack == [])
  }

  /** Ctrl+C, or an event of a background task. */
  function TaskNext(s: State, e: Event): State {
    match e
    case Interrupt => if Ending(s) then s else Stop(s, None, CtrlC)
    case WatcherSees => WatcherTurn(s)
    case TaskFails(task, code) => TaskFailure(s, task, Failure(code))
    case TaskEnds(task) => s.(w := EndTask(s.w, task))
    case MonitorPolled(state) => MonitorTurn(s, state)
    case _ => s
  }

  predicate OfMain(e: Event) {
    || e.Proceed?
    || e.ShellOpened?
    || e.Fail?
    || e.Deliver?
    || e.PromptInterrupted?
    || e.Turn?
    || e.Polled?
  }

  predicate OfTasks(e: Event) {
    e.Interrupt? || e.WatcherSees? || e.TaskFails? || e.TaskEnds? || e.MonitorPolled?
  }

  /** One event. Before `run` has begun, there is only that, and what was there before. */
  function Next(s: State, e: Event): State {
    if e.OldBlock? then s.(w := s.w.(block := Stale))
    else if s.at == Begin then
      if e.TakeLock? then TakesLock(s, e.free) else s
    else if OfMain(e) then MainNext(s, e)
    else OtherNext(s, e)
  }

  function OtherNext(s: State, e: Event): State {
    if e.CleanUp? || e.Exit? then CleanupNext(s, e)
    else if OfTasks(e) then TaskNext(s, e)
    else AroundNext(s, e)
  }

  /** The state after the events `es`. */
  function After(mode: Mode, es: seq<Event>): State {
    if es == [] then Init(mode) else Next(After(mode, es[..|es| - 1]), es[|es| - 1])
  }

  lemma AfterOneMore(mode: Mode, es: seq<Event>, i: nat)
    requires i < |es|
    ensures After(mode, es[..i + 1]) == Next(After(mode, es[..i]), es[i])
  {
    assert es[..i + 1][..i] == es[..i];
  }
}
