/** What stops the tunnel, and what goes on until then. */
module SessionStops {
  import opened Prelude
  import F = Finishing
  import opened Session
  import opened SessionInvariants
  import opened SessionResults
  import opened SessionEnds

  // Why it stops

  type StopCall = (Option<Error>, Why)

  /** A failure stops the tunnel with its error; but once the connection is lost, with that. */
  function Failing(s: State, error: Error): Option<StopCall> {
    var blamed := if s.w.lost then ConnectionLost else error;
    Some((Some(blamed), Because(blamed)))
  }

  /** A wait in which the step failed, with no cancellation to hear of first. */
  predicate Fails<T>(f: Option<F.Finish<T>>) {
    f.Some? && f.value.at == F.Shielded && !f.value.cancelled && f.value.step.Broke?
  }

  /** What the main task learns at its turn. */
  function TurnFails(s: State): Option<StopCall> {
    if s.at == GatherAt && GatherOver(s.waits) && !AllMade(s.waits) && !s.halt.pending then Failing(s, Failure(1))
    else if s.at == SubmitAt && Fails(s.waits.submitting) then Failing(s, Failure(2))
    else if s.at == PublishAt && Fails(s.waits.publishing) then Failing(s, Failure(3))
    else None
  }

  /** An answer about the job, while the main task waits for it. */
  function AnswerFails(s: State, state: JobState): Option<StopCall> {
    if !Polling(s) || s.halt.pending then None
    else if state == Unknown then Failing(s, StrangeState)
    else if state in {Succeeded, JobState.Failed, Gone} then Failing(s, JobOver(state))
    else None
  }

  /** And while the tunnel serves, when a job's end is no failure. */
  function AnswerStops(s: State, state: JobState): Option<StopCall> {
    if Monitor !in s.w.tasks then None
    else if state == Unknown then Failing(s, StrangeState)
    else if state in {Succeeded, JobState.Failed, Gone} then Some((None, JobEnded(state)))
    else None
  }

  /** What the main task awaits, unless it is `gather`, a `_finish`, or the stop that it waits for while it serves. */
  predicate StepMayFail(s: State) {
    || s.at in {ConnectAt, PrepareAt, SftpAt, LeaseAt, CommandAt, JobAt, PortAt, EndpointAt}
    || (s.at == SubmitAt && s.mode == Interactive)
    || (s.at == ForwardAt && !s.w.stray)
  }

  /** The reason, if any, that an event is for stopping: whether or not there was one before. */
  function Reason(s: State, e: Event): Option<StopCall> {
    if s.at == Begin then if e == TakeLock(false) then Failing(s, Failure(0)) else None
    else
      match e
      case Fail(code) => if StepMayFail(s) then Failing(s, Failure(code)) else None
      case Polled(state, _) => AnswerFails(s, state)
      case Turn => TurnFails(s)
      case Interrupt => if Ending(s) then None else Some((None, CtrlC))
      case WatcherSees => if Watcher in s.w.tasks && s.w.lost then Failing(s, ConnectionLost) else None
      case TaskFails(task, code) => if task in s.w.tasks then Failing(s, Failure(code)) else None
      case MonitorPolled(state) => AnswerStops(s, state)
      case _ => None
  }

  function Listed(reason: Option<StopCall>): seq<StopCall> {
    if reason.Some? then [reason.value] else []
  }

  /** All the reasons there were, in order. */
  function Reasons(mode: Mode, es: seq<Event>): seq<StopCall> {
    if es == [] then []
    else Reasons(mode, es[..|es| - 1]) + Listed(Reason(After(mode, es[..|es| - 1]), es[|es| - 1]))
  }

  lemma MainTurnReasons(s: State)
    requires Inv(s)
    ensures Turns(s).halt.stops == s.halt.stops + Listed(TurnFails(s))
  {
    if s.at == GatherAt {
      GatherReasons(s);
    } else if s.at == SubmitAt && s.waits.submitting.Some? {
      SubmitReasons(s);
    } else if s.at == PublishAt && s.waits.publishing.Some? {
      PublishReasons(s);
    }
  }

  lemma GatherReasons(s: State)
    requires s.at == GatherAt
    ensures GatherTurn(s).halt.stops == s.halt.stops + Listed(TurnFails(s))
  {
  }

  lemma SubmitReasons(s: State)
    requires s.at == SubmitAt && s.waits.submitting.Some? && F.Sound(s.waits.submitting.value)
    requires !s.waits.submitting.value.Ended()
    ensures SubmitTurn(s).halt.stops == s.halt.stops + Listed(TurnFails(s))
  {
  }

  lemma PublishReasons(s: State)
    requires s.at == PublishAt && s.waits.publishing.Some? && F.Sound(s.waits.publishing.value)
    requires !s.waits.publishing.value.Ended()
    ensures PublishTurn(s).halt.stops == s.halt.stops + Listed(TurnFails(s))
  {
  }

  lemma PollReasons(s: State, state: JobState, hosted: bool)
    requires Polling(s) && !s.halt.pending
    ensures Polls(s, state, hosted).halt.stops == s.halt.stops + Listed(AnswerFails(s, state))
  {
  }

  lemma ProceedReasons(s: State)
    ensures Proceeds(s).halt.stops == s.halt.stops
  {
  }

  lemma MainReasons(s: State, e: Event)
    requires Inv(s) && OfMain(e) && s.at != Begin
    ensures MainNext(s, e).halt.stops == s.halt.stops + Listed(Reason(s, e))
  {
    hide Inv, Turns, Polls, Proceeds, TurnFails, AnswerFails;
    match e
    case Proceed => ProceedReasons(s);
    case Turn => MainTurnReasons(s);
    case Polled(state, hosted) =>
      if Polling(s) && !s.halt.pending { PollReasons(s, state, hosted); } else { NoAnswer(s, state); }
    case _ =>
  }

  lemma NoAnswer(s: State, state: JobState)
    requires !Polling(s) || s.halt.pending
    ensures AnswerFails(s, state).None?
  {
  }

  lemma StopReason(s: State, error: Option<Error>, why: Why)
    ensures Stop(s, error, why).halt.stops == s.halt.stops + [(error, why)]
  {
  }

  lemma FailureReason(s: State, task: Task, error: Error)
    ensures TaskFailure(s, task, error).halt.stops ==
      s.halt.stops + if task in s.w.tasks then Listed(Failing(s, error)) else []
  {
    var blamed := Blame(s.w.lost, error);
    StopReason(s, Some(blamed), Because(blamed));
  }

  lemma MonitorReasons(s: State, state: JobState)
    ensures MonitorTurn(s, state).halt.stops == s.halt.stops + Listed(AnswerStops(s, state))
  {
    var inspected := s.(job := Inspects(s.job, state));
    FailureReason(inspected, Monitor, StrangeState);
    StopReason(inspected, None, JobEnded(state));
  }

  lemma TaskReasons(s: State, e: Event)
    requires s.at != Begin && OfTasks(e)
    ensures TaskNext(s, e).halt.stops == s.halt.stops + Listed(Reason(s, e))
  {
    hide Stop, TaskFailure, MonitorTurn, AnswerStops;
    match e
    case Interrupt => StopReason(s, None, CtrlC);
    case WatcherSees => StopReason(s, Some(ConnectionLost), Because(ConnectionLost));
    case TaskFails(task, code) => FailureReason(s, task, Failure(code));
    case MonitorPolled(state) => MonitorReasons(s, state);
    case _ =>
  }

  lemma CleanupReasons(s: State, e: Event)
    ensures CleanupNext(s, e).halt.stops == s.halt.stops
  {
  }

  lemma NextReasons(s: State, e: Event)
    requires Inv(s)
    ensures Next(s, e).halt.stops == s.halt.stops + Listed(Reason(s, e))
  {
    hide Inv, MainNext, TaskNext, CleanupNext, AroundNext;
    if e.OldBlock? {
    } else if s.at == Begin {
    } else if OfMain(e) {
      MainReasons(s, e);
    } else if e.CleanUp? || e.Exit? {
      CleanupReasons(s, e);
    } else if OfTasks(e) {
      TaskReasons(s, e);
    } else {
      AroundPasses(s, e);
    }
  }

  /**
   Whatever is a reason to stop calls `_stop`, with the error that it should, and nothing
   else does: a failed step or background task, a lost connection, an answer about the job
   that says it is over or nothing sensible, and Ctrl+C.
   */
  lemma {:induction false} EveryReasonStops(mode: Mode, es: seq<Event>)
    ensures After(mode, es).halt.stops == Reasons(mode, es)
  {
    if es != [] {
      hide Inv, Next, Reason;
      EveryReasonStops(mode, es[..|es| - 1]);
      RunsKeep(mode, es[..|es| - 1]);
      NextReasons(After(mode, es[..|es| - 1]), es[|es| - 1]);
    }
  }

  /** So the first reason is why the tunnel stops, and is what `run` raises, or returns without. */
  lemma TheFirstReasonCounts(mode: Mode, es: seq<Event>)
    ensures var s, reasons := After(mode, es), Reasons(mode, es);
      && (s.halt.why == if reasons == [] then None else Some(reasons[0].1))
      && (s.at == Ended && !Interrupted(mode, es) ==> reasons != [] && s.halt.raised == reasons[0].0)
  {
    EveryReasonStops(mode, es);
    TheFirstStopWins(mode, es);
  }

  predicate Settles(state: JobState) {
    state in {Unknown, Succeeded, JobState.Failed, Gone}
  }

  ghost predicate HasNews(states: seq<JobState>) {
    exists i :: 0 <= i < |states| && Settles(states[i])
  }

  lemma HasNewsNext(states: seq<JobState>, state: JobState)
    ensures HasNews(states + [state]) == (HasNews(states) || Settles(state))
  {
    var all := states + [state];
    if HasNews(states) {
      var i :| 0 <= i < |states| && Settles(states[i]);
      assert all[i] == states[i];
    }
    if Settles(state) {
      assert all[|states|] == state;
    }
  }

  /** Answers are processed by an event that asks, and by no other. */
  lemma InspectedNext(s: State, e: Event)
    ensures var t := Next(s, e);
      || t.job.inspected == s.job.inspected
      || (s.at != Begin && e.Polled? && Polling(s) && !s.halt.pending && t.job.inspected == s.job.inspected + [e.state])
      || (s.at != Begin && e.MonitorPolled? && Monitor in s.w.tasks && t.job.inspected == s.job.inspected + [e.state])
  {
    if e.OldBlock? || s.at == Begin {
    } else if OfMain(e) {
      InspectedByMain(s, e);
    } else if OfTasks(e) {
      InspectedByTask(s, e);
    } else if e.CleanUp? && s.at == Unwinding && s.exits.stack != [] {
      assert CleansUp(s, e.outcome).job.inspected == s.job.inspected;
    }
  }

  lemma InspectedByMain(s: State, e: Event)
    requires OfMain(e)
    ensures var t := MainNext(s, e);
      || t.job.inspected == s.job.inspected
      || (e.Polled? && Polling(s) && !s.halt.pending && t.job.inspected == s.job.inspected + [e.state])
  {
  }

  lemma InspectedByTask(s: State, e: Event)
    ensures var t := TaskNext(s, e);
      || t.job.inspected == s.job.inspected
      || (e.MonitorPolled? && Monitor in s.w.tasks && t.job.inspected == s.job.inspected + [e.state])
  {
  }

  lemma NewsStopsNext(s: State, e: Event)
    requires Inv(s) && (HasNews(s.job.inspected) ==> s.halt.stops != [])
    ensures HasNews(Next(s, e).job.inspected) ==> Next(s, e).halt.stops != []
  {
    hide Inv, Next;
    InspectedNext(s, e);
    NextReasons(s, e);
    if e.Polled? {
      HasNewsNext(s.job.inspected, e.state);
    } else if e.MonitorPolled? {
      HasNewsNext(s.job.inspected, e.state);
    }
  }

  /** Once the session has learned that the job is over, or nothing sensible about it, the tunnel is stopping. */
  lemma {:induction false} AFinishedJobStopsTheTunnel(mode: Mode, es: seq<Event>)
    ensures HasNews(After(mode, es).job.inspected) ==> After(mode, es).halt.why.Some?
    ensures HasNews(After(mode, es).job.inspected) ==> After(mode, es).halt.stops != []
  {
    RunsKeep(mode, es);
    StoppedExactlyIfCalled(After(mode, es));
    if es != [] {
      hide Inv, Next, HasNews;
      AFinishedJobStopsTheTunnel(mode, es[..|es| - 1]);
      RunsKeep(mode, es[..|es| - 1]);
      NewsStopsNext(After(mode, es[..|es| - 1]), es[|es| - 1]);
    } else {
      assert After(mode, es).job.inspected == [];
    }
  }

  /**
   If it is the monitor that says so first, the tunnel stops for the job's end, without an
   error, and `run` returns.
   */
  lemma TheMonitorStopsWithoutAnError(mode: Mode, es: seq<Event>, state: JobState, more: seq<Event>)
    requires var s := After(mode, es); s.at != Begin && s.halt.why.None? && Monitor in s.w.tasks
    requires state in {Succeeded, JobState.Failed, Gone}
    ensures var s := After(mode, es + [MonitorPolled(state)] + more);
      && s.halt.why == Some(JobEnded(state)) && s.halt.error == None
      && (s.at == Ended ==> s.halt.raised == None)
  {
    hide Inv, Next, Interrupted;
    var asked := es + [MonitorPolled(state)];
    assert asked[..|es|] == es;
    RunsKeep(mode, es);
    StoppedExactlyIfCalled(After(mode, es));
    EveryReasonStops(mode, es);
    assert Reasons(mode, asked) == [(None, JobEnded(state))];
    ReasonsGoOn(mode, asked, more);
    TheFirstReasonCounts(mode, asked + more);
    EveryReasonStops(mode, asked + more);
    TheFirstStopWins(mode, asked + more);
    MonitoredIsNoPrompt(mode, es, MonitorPolled(state), more);
  }

  lemma {:induction false} ReasonsGoOn(mode: Mode, es: seq<Event>, more: seq<Event>)
    ensures Reasons(mode, es) <= Reasons(mode, es + more)
  {
    if more == [] {
      assert es + more == es;
    } else {
      assert (es + more)[..|es + more| - 1] == es + more[..|more| - 1];
      ReasonsGoOn(mode, es, more[..|more| - 1]);
    }
  }

  /** Nobody is asked for anything once the tunnel is stopping. */
  lemma StoppingAsksNothing(s: State)
    requires Inv(s) && s.halt.stops != []
    ensures !AtPrompt(s)
  {
  }

  /** A session that has come as far as a background task is past every prompt. */
  lemma MonitoredIsNoPrompt(mode: Mode, es: seq<Event>, e: Event, more: seq<Event>)
    requires var s := After(mode, es); s.halt.why.None? && Monitor in s.w.tasks && s.at != Begin
    requires e.MonitorPolled? && Reasons(mode, es + [e]) != []
    ensures !Interrupted(mode, es + [e] + more)
  {
    hide Reasons, BefallsAt;
    RunsKeep(mode, es);
    TasksComeLater(After(mode, es), Monitor);
    PassedMeansInterrupted(mode, es);
    NotPassing(After(mode, es));
    forall k | 0 <= k < |es + [e] + more|
      ensures !BefallsAt(PromptInterrupt, mode, es + [e] + more, k)
    {
      NoPromptAt(mode, es, e, more, k);
    }
  }

  lemma NoPromptAt(mode: Mode, es: seq<Event>, e: Event, more: seq<Event>, k: nat)
    requires k < |es + [e] + more| && !Interrupted(mode, es)
    requires e.MonitorPolled? && Reasons(mode, es + [e]) != []
    ensures !BefallsAt(PromptInterrupt, mode, es + [e] + more, k)
  {
    hide Inv, Reasons, AtPrompt, Next;
    var all := es + [e] + more;
    if k < |es| {
      assert all[..k] == es[..k];
      assert BefallsAt(PromptInterrupt, mode, es, k) == BefallsAt(PromptInterrupt, mode, all, k);
    } else if k > |es| {
      var so := more[..k - |es| - 1];
      assert all[..k] == es + [e] + so;
      ReasonsGoOn(mode, es + [e], so);
      EveryReasonStops(mode, all[..k]);
      RunsKeep(mode, all[..k]);
      StoppingAsksNothing(After(mode, all[..k]));
    }
  }

  lemma NotPassing(s: State)
    requires Inv(s) && s.at.Awaiting()
    ensures s.halt.passing.None?
  {
  }
}
