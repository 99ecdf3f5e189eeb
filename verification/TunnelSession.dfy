/** The session as the object it is: attributes that its methods update, one event at a time. */
module Tunnel {
  import opened Prelude
  import F = Finishing
  import opened Session
  import opened SessionInvariants
  import Results = SessionResults
  import Ends = SessionEnds

  class TunnelSession {
    const mode: Mode
    // A query has found the job over.
    var jobFinished: bool
    // The tunnel was serving at some time.
    var ready: bool
    var phase: Phase
    // The first stop's reason and error.
    var why: Option<Why>
    var error: Option<Error>
    var cancelledMainTask: bool
    // The main task: its place, its cancellation not yet delivered, and its locals.
    var at: At
    var pending: bool
    var passing: Option<Error>
    var stack: seq<Cleanup>
    var jobId: Option<JobId>
    var waits: Waits
    var world: World
    // The cancellations requested of the scheduler.
    var bkills: seq<JobId>
    // What `run` raised, once it has ended.
    var raised: Option<Error>

    ghost var registered: seq<Cleanup>
    ghost var ran: seq<Ran>
    ghost var stops: seq<(Option<Error>, Why)>
    ghost var cancels: nat
    ghost var inspected: seq<JobState>
    ghost var inspectedAtCancel: Option<seq<JobState>>

    ghost function View(): State
      reads this
    {
      State(
        mode, at, ready,
        Halt(why, error, cancelledMainTask, pending, passing, phase, stops, cancels, raised),
        Exits(stack, registered, ran),
        waits,
        JobRecord(jobId, jobFinished, inspected, bkills, inspectedAtCancel),
        world)
    }

    /** What every run of the session keeps. */
    ghost predicate Valid()
      reads this
    {
      Inv(View())
    }

    constructor (mode: Mode)
      ensures Valid() && this.mode == mode && View() == Init(mode)
    {
      this.mode := mode;
      jobFinished, ready, phase := false, false, Connecting;
      why, error, cancelledMainTask := None, None, false;
      at, pending, passing, stack, jobId := Begin, false, None, [], None;
      waits := Waits((Making, Making), None, None, None, false);
      world := World(false, false, false, false, false, false, false, false, NoBlock, {});
      registered, ran, stops, cancels, raised := [], [], [], 0, None;
      inspected, bkills, inspectedAtCancel := [], [], None;
    }

    /** `_report` */
    method Report(phase: Phase)
      modifies this`phase
      ensures View() == old(View()).(halt := Session.Report(old(View()).halt, phase))
    {
      if this.phase != Stopping {
        this.phase := phase;
      }
    }

    /** `_stop`, up to the main task's cancellation; whether this is the first call. */
    method Decided(error: Option<Error>, why: Why) returns (first: bool)
      modifies this`why, this`error, this`phase, this`stops
      ensures View() == old(View()).(halt := Decide(old(View()).halt, error, why))
      ensures first == old(this.why).None?
    {
      stops := stops + [(error, why)];
      if this.why.Some? {
        return false;
      }
      this.why, this.error := Some(why), error;
      Report(Stopping);
      first := true;
    }

    /** `_stop` */
    method Stop(error: Option<Error>, why: Why, byMain: bool)
      modifies this`why, this`error, this`phase, this`cancelledMainTask, this`pending, this`waits, this`stops, this`cancels
      ensures View() == if byMain then old(View()).(halt := Decide(old(View()).halt, error, why))
                        else Session.Stop(old(View()), error, why)
    {
      var first := Decided(error, why);
      if first && !byMain {
        CancelMainTask();
        cancelledMainTask := true;
      }
    }

    method CancelMainTask()
      modifies this`pending, this`waits, this`cancels
      ensures pending && waits == TellCancelled(old(waits), at) && cancels == old(cancels) + 1
    {
      pending, cancels := true, cancels + 1;
      if at == GatherAt {
        if !GatherOver(waits) {
          waits := CancelChildren(waits);
        }
      } else if at == SubmitAt {
        waits := waits.(submitting := Told(waits.submitting));
      } else if at == PublishAt {
        waits := waits.(publishing := Told(waits.publishing));
      }
    }

    /** `push_async_callback`, and `callback` */
    method Push(step: Cleanup)
      modifies this`stack, this`registered
      ensures View() == old(View()).(exits := Session.Push(old(View()).exits, [step]))
    {
      stack, registered := stack + [step], registered + [step];
    }

    method PushTwo(step: Cleanup, next: Cleanup)
      modifies this`stack, this`registered
      ensures View() == old(View()).(exits := Session.Push(old(View()).exits, [step, next]))
    {
      PushBoth(View().exits, step, next);
      Push(step);
      Push(next);
    }

    /** `_start_task` */
    method StartTask(task: Task)
      modifies this`world, this`stack, this`registered
      ensures View() == old(View()).(
        w := Session.StartTask(old(world), task), exits := Session.Push(old(View()).exits, [StopTask(task)]))
    {
      world := world.(tasks := world.tasks + {task});
      Push(StopTask(task));
    }

    /** The end of `run`'s `try`: what the main task raised, if not the cancellation, is reported. */
    method LeaveStart(raised: Option<Error>)
      modifies this`why, this`error, this`phase, this`cancelledMainTask, this`pending, this`waits, this`stops,
               this`cancels, this`at
      ensures View() == if raised.Some? then Session.MainFails(old(View()), raised.value) else Unwind(old(View()))
    {
      if raised.Some? {
        var blamed := Blame(world.lost, raised.value);
        Stop(Some(blamed), Because(blamed), true);
      }
      pending := false;  // `uncancel`
      at := Unwinding;
    }

    // `_start`, from one await to the next

    method TakeLock(free: bool)
      requires at == Begin
      modifies this
      ensures View() == TakesLock(old(View()), free)
    {
      if !free {
        LeaveStart(Some(Failure(0)));
        return;
      }
      world := world.(lock := true);
      Push(ReleaseLock);
      at := ConnectAt;
    }

    method Connected()
      requires at == ConnectAt
      modifies this
      ensures View() == Connects(old(View()))
    {
      hide Session.Push;
      LoggedIn();
      Report(Preparing);
      at := PrepareAt;
    }

    method LoggedIn()
      modifies this`world, this`stack, this`registered
      ensures View() == old(View()).(
        w := Session.StartTask(old(world).(login := true), Watcher),
        exits := Session.Push(old(View()).exits, [CloseLogin, StopTask(Watcher)]))
    {
      hide Session.Push;
      world := Session.StartTask(world.(login := true), Watcher);
      PushTwo(CloseLogin, StopTask(Watcher));
    }

    method SftpOpened()
      requires at == SftpAt
      modifies this
      ensures View() == OpensSftp(old(View()))
    {
      hide Session.Push;
      SessionOpens();
      waits := waits.(creating := Some(F.Start()));
      at := GatherAt;
    }

    method SessionOpens()
      modifies this`world, this`stack, this`registered
      ensures View() == old(View()).(
        w := old(world).(sftp := !old(world).lost),
        exits := Session.Push(old(View()).exits, [CloseSftp, RemoveControl]))
    {
      hide Session.Push;
      world := world.(sftp := !world.lost);
      PushTwo(CloseSftp, RemoveControl);
    }

    method LeasePublished()
      requires at == LeaseAt
      modifies this
      ensures View() == StartsSubmission(old(View()))
    {
      Report(Submitting);
      waits := waits.(submitting := if mode == Batch then Some(F.Start()) else None);
      at := SubmitAt;
    }

    method ShellOpen(id: JobId)
      requires at == SubmitAt && mode == Interactive
      modifies this
      ensures View() == OpensShell(old(View()), id)
    {
      PushTwice(View().exits, [CloseShell, StopTask(Output)], [CancelJob(id)]);
      ShellStarts();
      CancelOnCleanup(id);
      Report(Queued);
      at := CommandAt;
    }

    method ShellStarts()
      modifies this`world, this`stack, this`registered
      ensures View() == old(View()).(
        w := Session.StartTask(old(world).(shell := true), Output),
        exits := Session.Push(old(View()).exits, [CloseShell, StopTask(Output)]))
    {
      PushBoth(View().exits, CloseShell, StopTask(Output));
      world := world.(shell := true);
      Push(CloseShell);
      StartTask(Output);
    }

    method CancelOnCleanup(id: JobId)
      modifies this`jobId, this`stack, this`registered
      ensures View() == old(View()).(
        job := old(View()).job.(id := Some(id)), exits := Session.Push(old(View()).exits, [CancelJob(id)]))
    {
      jobId := Some(id);
      Push(CancelJob(id));
    }

    method PortLearned()
      requires at == PortAt
      modifies this
      ensures View() == LearnsPort(old(View()))
    {
      StartTask(Heartbeats);
      at := EndpointAt;
    }

    method Forwarding()
      requires at == ForwardAt
      modifies this
      ensures View() == Forwards(old(View()))
    {
      hide Session.Push;
      PortOpens();
      waits := waits.(publishing := Some(F.Start()));
      at := PublishAt;
    }

    method PortOpens()
      modifies this`world, this`stack, this`registered
      ensures View() == old(View()).(
        w := old(world).(port := !old(world).lost, stray := false),
        exits := Session.Push(old(View()).exits, [ClosePort, Withdraw]))
    {
      hide Session.Push;
      world := world.(port := !world.lost, stray := false);
      PushTwo(ClosePort, Withdraw);
    }

    method Proceed()
      modifies this
      ensures View() == Proceeds(old(View()))
    {
      match at
      case ConnectAt => Connected();
      case PrepareAt => at := SftpAt;
      case SftpAt => SftpOpened();
      case LeaseAt => LeasePublished();
      case CommandAt => at := JobAt;
      case PortAt => PortLearned();
      case EndpointAt => at := ForwardAt;
      case ForwardAt => Forwarding();
      case _ =>
    }

    /** `_job_ended`: whether the job is over, or the error raised about its state. */
    method JobEnded(state: JobState) returns (ended: bool, strange: bool)
      modifies this`jobFinished, this`inspected
      ensures View() == old(View()).(job := Inspects(old(View()).job, state))
      ensures strange == (state == Unknown) && ended == state.Terminal()
    {
      inspected := inspected + [state];
      if state == Unknown {
        return false, true;
      }
      if !state.Terminal() {
        return false, false;
      }
      jobFinished := true;
      return true, false;
    }

    /** The main task's query of the job, in each of the waits that makes one. */
    method Polled(state: JobState, hosted: bool)
      requires Polling(View())
      modifies this
      ensures View() == Polls(old(View()), state, hosted)
    {
      hide MainFails, Session.Report;
      if at == JobAt && state == Running && hosted {
        inspected := inspected + [state];
        Report(Starting);
        at := PortAt;
        return;
      }
      var ended, strange := JobEnded(state);
      if strange {
        LeaveStart(Some(StrangeState));
      } else if ended {
        LeaveStart(Some(JobOver(state)));
      }
    }

    method GatherTurn()
      requires at == GatherAt
      modifies this
      ensures View() == Session.GatherTurn(old(View()))
    {
      if !GatherOver(waits) {
        return;
      }
      if AllMade(waits) && !pending {
        at := LeaseAt;
        return;
      }
      waits := waits.(loose := waits.creating.Some? && waits.creating.value.step.Busy?);
      LeaveStart(if pending then None else Some(Failure(1)));
    }

    method SubmitTurn()
      requires at == SubmitAt && waits.submitting.Some?
      modifies this
      ensures View() == Session.SubmitTurn(old(View()))
    {
      var f := F.Resumed(waits.submitting.value);
      waits := waits.(submitting := Some(f));
      match f.at {
        case Shielded =>
        case Waiting => pending := false;
        case Raised => LeaveStart(Some(Failure(2)));
        case Returned => Queue(f);
        case _ =>
          TakeJob(f);
          LeaveStart(None);
      }
    }

    method Queue(f: F.Finish<JobId>)
      modifies this
      ensures View() ==
        Session.CancelOnCleanup(old(View()), f).(halt := Session.Report(old(View()).halt, Queued), at := JobAt)
    {
      TakeJob(f);
      Report(Queued);
      at := JobAt;
    }

    /** `_finish`'s call of `cancel_on_cleanup`, if the submission gave a job. */
    method TakeJob(f: F.Finish<JobId>)
      modifies this`jobId, this`stack, this`registered
      ensures View() == Session.CancelOnCleanup(old(View()), f)
    {
      if f.calls != [] {
        CancelOnCleanup(f.calls[|f.calls| - 1]);
      }
    }

    method Serve()
      modifies this
      ensures View() == Serves(old(View()))
    {
      StartTask(Monitor);
      ready := true;
      Report(Serving);
      at := ServeAt;
    }

    method PublishTurn()
      requires at == PublishAt && waits.publishing.Some?
      modifies this
      ensures View() == Session.PublishTurn(old(View()))
    {
      hide MainFails, Unwind, Serves;
      var f := F.Resumed(waits.publishing.value);
      waits := waits.(publishing := Some(f));
      match f.at {
        case Shielded =>
        case Waiting => pending := false;
        case Returned => Serve();
        case Raised => LeaveStart(Some(Failure(3)));
        case _ => LeaveStart(None);
      }
    }

    method MainTurn(e: Event)
      requires OfMain(e)
      modifies this
      ensures View() == MainNext(old(View()), e)
    {
      match e
      case Proceed => if !pending { Proceed(); }
      case ShellOpened(id) => if at == SubmitAt && mode == Interactive && !pending { ShellOpen(id); }
      case Fail(code) =>
        if Awaits() && at != ServeAt && !(at == ForwardAt && world.stray) { LeaveStart(Some(Failure(code))); }
      case Deliver => if Awaits() && pending { LeaveStart(None); }
      case PromptInterrupted => if at == ConnectAt && !pending { at, passing := Unwinding, Some(KeyboardInterrupt); }
      case Turn =>
        if at == GatherAt {
          GatherTurn();
        } else if at == SubmitAt && waits.submitting.Some? {
          SubmitTurn();
        } else if at == PublishAt && waits.publishing.Some? {
          PublishTurn();
        }
      case Polled(state, hosted) =>
        if (at == JobAt || at == PortAt || at == EndpointAt) && !pending { Polled(state, hosted); }
      case _ =>
    }

    /** Whether the main task awaits a step directly. */
    predicate Awaits()
      reads this
      ensures Awaits() == Direct(View())
    {
      at.Awaiting() && at != GatherAt && at != PublishAt && !(at == SubmitAt && mode == Batch)
    }

    // The background tasks

    /** `_stop_on_failure` */
    method TaskFails(task: Task, error: Error)
      modifies this
      ensures View() == TaskFailure(old(View()), task, error)
    {
      if task in world.tasks {
        var blamed := Blame(world.lost, error);
        Stop(Some(blamed), Because(blamed), false);
        world := EndTask(world, task);
      }
    }

    /** One query of `_monitor_job`. */
    method Monitored(state: JobState)
      modifies this
      ensures View() == MonitorTurn(old(View()), state)
    {
      if Monitor !in world.tasks {
        return;
      }
      var ended, strange := JobEnded(state);
      if strange {
        TaskFails(Monitor, StrangeState);
      } else if ended {
        Stop(None, Why.JobEnded(state), false);
        world := EndTask(world, Monitor);
      }
    }

    /** `_watch_connection`, once the connection is closed. */
    method WatcherRuns()
      modifies this
      ensures View() == WatcherTurn(old(View()))
    {
      if Watcher in world.tasks && world.lost {
        Stop(Some(ConnectionLost), Because(ConnectionLost), false);
        world := EndTask(world, Watcher);
      }
    }

    /** Whether nothing else comes in before `run` has ended. */
    predicate IsEnding()
      reads this
      ensures IsEnding() == Ending(View())
    {
      at == Ended || (at == Unwinding && stack == [])
    }

    method TaskTurn(e: Event)
      requires OfTasks(e)
      modifies this
      ensures View() == TaskNext(old(View()), e)
    {
      hide Session.Stop, WatcherTurn, TaskFailure, MonitorTurn, Ending, EndTask;
      match e
      case Interrupt => if !IsEnding() { Stop(None, CtrlC, false); }
      case WatcherSees => WatcherRuns();
      case TaskFails(task, code) => TaskFails(task, Failure(code));
      case TaskEnds(task) => world := EndTask(world, task);
      case MonitorPolled(state) => Monitored(state);
      case _ =>
    }

    // Cleanup

    /** The exit stack's next step, run as `_cleanup`, `_cancel_job`, `_stop_task` or `close` runs it. */
    method CleanUp(outcome: Outcome)
      requires stack != []
      modifies this
      ensures View() == CleansUp(old(View()), outcome)
    {
      hide Session.TurnOf, PassesOn, Effect, Bkill;
      var step := TakeOff(outcome);
      RunStep(step, outcome);
      if step.CancelJob? {
        CancelTheJob(step.id);
      }
    }

    /** The step's turn; a cancellation that comes in it is passed on. */
    method TakeOff(outcome: Outcome) returns (step: Cleanup)
      requires stack != []
      modifies this`stack, this`ran, this`pending, this`passing
      ensures step == old(stack[|stack| - 1])
      ensures View() == old(View()).(
        halt := PassesOn(old(View()).halt),
        exits := Exits(
          old(stack[..|stack| - 1]), registered, old(ran) + [Session.TurnOf(old(View()).halt, step, outcome)]))
    {
      step := stack[|stack| - 1];
      stack, ran := stack[..|stack| - 1], ran + [if pending then Cut(step, outcome) else Ran(step, outcome)];
      if pending {
        pending, passing := false, Some(CancelledError);
      }
    }

    method RunStep(step: Cleanup, outcome: Outcome)
      modifies this`world
      ensures world == Effect(old(world), step, outcome, jobFinished)
    {
      if outcome == Fine {
        world := Undo(world, step);
      }
      // Stopping an unfinished job's output closes its shell.
      if step == CloseShell || (step == StopTask(Output) && !jobFinished) {
        world := world.(shell := false);
      }
    }

    /** `_cancel_job` */
    method CancelTheJob(id: JobId)
      modifies this`bkills, this`inspectedAtCancel
      ensures View() == old(View()).(job := Bkill(old(View()).job, id))
    {
      inspectedAtCancel := Some(inspected);
      if !jobFinished {
        bkills := bkills + [id];
      }
    }

    /** The exit stack's next step is over, or none is left. */
    method CleanupTurn(e: Event)
      modifies this
      ensures View() == CleanupNext(old(View()), e)
    {
      if at == Unwinding && stack != [] && e.CleanUp? {
        CleanUp(e.outcome);
      } else if at == Unwinding && stack == [] && e.Exit? {
        at, raised := Ended, if passing.Some? then passing else error;
      }
    }

    /** Any event, as the machine has it; and what every run keeps is kept. */
    method Handle(e: Event)
      requires Valid()
      modifies this
      ensures Valid() && View() == Next(old(View()), e)
    {
      hide Inv;
      NextKeeps(View(), e);
      Step(e);
    }

    method Step(e: Event)
      modifies this
      ensures View() == Next(old(View()), e)
    {
      hide TakesLock, MainNext, OtherNext;
      if e.OldBlock? {
        world := world.(block := Stale);
      } else if at == Begin {
        if e.TakeLock? {
          TakeLock(e.free);
        }
      } else if OfMain(e) {
        MainTurn(e);
      } else {
        OtherTurn(e);
      }
    }

    method OtherTurn(e: Event)
      modifies this
      ensures View() == OtherNext(old(View()), e)
    {
      if e.CleanUp? || e.Exit? {
        CleanupTurn(e);
      } else if OfTasks(e) {
        TaskTurn(e);
      } else {
        Around(e);
      }
    }

    /** What happens elsewhere: to the steps that the main task waits for, and to the world. */
    method Around(e: Event)
      modifies this
      ensures View() == AroundNext(old(View()), e)
    {
      hide EndSibling, Session.Create, Submit, Session.Publish, Lose;
      match e
      case SiblingEnds(first, made) => waits := EndSibling(waits, first, made);
      case Creation(creation) => waits := Create(waits, creation);
      case Submission(submission) => waits := Submit(waits, submission);
      case Publication(publication) => waits := Publish(waits, publication);
      case _ => WorldChanges(e);
    }

    method WorldChanges(e: Event)
      requires !(e.SiblingEnds? || e.Creation? || e.Submission? || e.Publication?)
      modifies this`world
      ensures View() == AroundNext(old(View()), e)
    {
      hide Lose;
      match e
      case ControlAppears => if UnderWay(waits.creating) { world := world.(control := true); }
      case BlockAppears => if UnderWay(waits.publishing) { world := world.(block := Own); }
      case Listens => if at == ForwardAt && !pending { world := world.(stray := true); }
      case LoseLogin => world := Lose(world);
      case BlockGoes => world := world.(block := NoBlock);
      case _ =>
    }
  }

  /** All that `world` still holds is the fault of the step that should have let go of it. */
  ghost predicate LetGo(world: World, ran: seq<Ran>, waits: Waits) {
    forall step :: Holds(world, step) ==> step in Spoiled(ran) || Excused(waits, step)
  }

  /** The job was cancelled, once, if there was one and no query before had found it over. */
  predicate CancelledOnce(job: JobRecord, cancelled: seq<JobId>) {
    match job.id
    case None => cancelled == []
    case Some(id) =>
      && job.inspectedAtCancel.Some?
      && cancelled == if HasTerminal(job.inspectedAtCancel.value) then [] else [id]
  }

  /**
   A whole run of a session, against what happens around it: once it has ended, what is
   left in the world, the error raised, and the cancellations requested.
   */
  method RunSession(mode: Mode, es: seq<Event>)
    returns (ready: bool, raised: Option<Error>, left: World, cancelled: seq<JobId>)
    ensures var s := After(mode, es);
      && ready == s.ready && left == s.w
      && (s.at == Ended ==>
            && LetGo(left, s.exits.ran, s.waits)
            && (left.stray <==> Ends.Befell(Ends.ListenerLoss, mode, es))
            && CancelledOnce(s.job, cancelled)
            && (if Ends.Interrupted(mode, es)
                then raised == Some(if s.halt.stops == [] then KeyboardInterrupt else CancelledError)
                else s.halt.stops != [] && raised == s.halt.stops[0].0))
  {
    hide Inv;
    var session := new TunnelSession(mode);
    var i := 0;
    while i < |es|
      invariant 0 <= i <= |es|
      invariant fresh(session) && session.Valid() && session.View() == After(mode, es[..i])
    {
      AfterOneMore(mode, es, i);
      session.Handle(es[i]);
      i := i + 1;
    }
    assert es[..|es|] == es;
    Ends.TheFirstStopWins(mode, es);
    Ends.AnInterruptPassesThrough(mode, es);
    Ends.AListenerIsLeftStray(mode, es);
    Results.TheJobIsCancelledOnce(mode, es);
    AllLetGo(mode, es);
    return session.ready, session.raised, session.world, session.bkills;
  }

  lemma AllLetGo(mode: Mode, es: seq<Event>)
    ensures var s := After(mode, es); s.at == Ended ==> LetGo(s.w, s.exits.ran, s.waits)
  {
    forall step
      ensures var s := After(mode, es);
        s.at == Ended && Holds(s.w, step) ==> step in Spoiled(s.exits.ran) || Excused(s.waits, step)
    {
      Results.NothingIsLeft(mode, es, step);
    }
  }
}
