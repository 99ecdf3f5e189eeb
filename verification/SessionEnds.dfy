/** How a run of the session ends: with a stop, or with an interrupt at a prompt; and that it does. */
module SessionEnds {
  import opened Prelude
  import F = Finishing
  import opened Session
  import opened SessionInvariants
  import opened SessionResults

  // What may happen once in a run

  /**
   Ctrl+C while the connection attempt asks for something; a cancellation of the main task,
   which is cleaning up already; a stop delivered between the listening of the port's
   socket and its result.
   */
  datatype Mishap = PromptInterrupt | CleanupCancel | ListenerLoss

  predicate Befalls(mishap: Mishap, s: State, e: Event) {
    match mishap
    case PromptInterrupt => e.PromptInterrupted? && AtPrompt(s)
    case CleanupCancel => s.at == Unwinding && Next(s, e).halt.cancels > s.halt.cancels
    case ListenerLoss => e.Deliver? && s.at == ForwardAt && s.halt.pending && s.w.stray
  }

  ghost predicate BefallsAt(mishap: Mishap, mode: Mode, es: seq<Event>, k: nat)
    requires k < |es|
  {
    Befalls(mishap, After(mode, es[..k]), es[k])
  }

  ghost predicate Befell(mishap: Mishap, mode: Mode, es: seq<Event>) {
    exists k :: 0 <= k < |es| && BefallsAt(mishap, mode, es, k)
  }

  lemma BefellNext(mishap: Mishap, mode: Mode, es: seq<Event>)
    requires es != []
    ensures var before := es[..|es| - 1];
      Befell(mishap, mode, es)
      <==> Befell(mishap, mode, before) || Befalls(mishap, After(mode, before), es[|es| - 1])
  {
    hide Befalls, After;
    var before := es[..|es| - 1];
    forall k | 0 <= k < |before|
      ensures BefallsAt(mishap, mode, es, k) == BefallsAt(mishap, mode, before, k)
    {
      assert es[..k] == before[..k];
    }
    if Befell(mishap, mode, before) {
      var k :| 0 <= k < |before| && BefallsAt(mishap, mode, before, k);
      assert BefallsAt(mishap, mode, es, k);
    }
    assert BefallsAt(mishap, mode, es, |before|) == Befalls(mishap, After(mode, before), es[|before|]);
  }

  // An interrupt at a prompt

  ghost predicate Interrupted(mode: Mode, es: seq<Event>) {
    Befell(PromptInterrupt, mode, es)
  }

  lemma CleanupPasses(s: State, e: Event)
    ensures s.halt.passing.Some? ==> CleanupNext(s, e).halt.passing.Some?
    ensures CleanupNext(s, e).halt.why == s.halt.why && CleanupNext(s, e).halt.cancels == s.halt.cancels
    ensures !s.halt.pending ==> PassesTheSame(s, CleanupNext(s, e))
  {
  }

  lemma AroundPasses(s: State, e: Event)
    ensures AroundNext(s, e).halt == s.halt
  {
  }

  /** Nothing but an interrupt at a prompt is passed on, or what comes of it. */
  lemma PassingNext(s: State, e: Event)
    requires Inv(s)
    ensures Next(s, e).halt.passing.Some? <==> s.halt.passing.Some? || (e.PromptInterrupted? && AtPrompt(s))
  {
    if e.OldBlock? || s.at == Begin {
    } else if OfMain(e) {
      MainLeavesBlocks(s, e);
    } else if e.CleanUp? || e.Exit? {
      CleanupPasses(s, e);
    } else if OfTasks(e) {
      TasksLeaveBlocks(s, e);
    } else {
      AroundPasses(s, e);
    }
  }

  lemma {:induction false} PassedMeansInterrupted(mode: Mode, es: seq<Event>)
    ensures After(mode, es).halt.passing.Some? <==> Interrupted(mode, es)
  {
    if es != [] {
      hide Inv, Next, AtPrompt, Befell;
      var before := es[..|es| - 1];
      RunsKeep(mode, before);
      PassedMeansInterrupted(mode, before);
      PassingNext(After(mode, before), es[|es| - 1]);
      BefellNext(PromptInterrupt, mode, es);
    }
  }

  /**
   The first call of `_stop` decides why the tunnel stops; and what `run` raises, if
   anything, exactly if the user did not interrupt a prompt. There is at most one
   cancellation of the main task.
   */
  lemma TheFirstStopWins(mode: Mode, es: seq<Event>)
    ensures var s := After(mode, es);
      && (s.halt.why.Some? <==> s.halt.stops != [])
      && (s.halt.stops != [] ==> s.halt.why == Some(s.halt.stops[0].1) && s.halt.error == s.halt.stops[0].0)
      && (s.at == Ended ==>
            (s.halt.stops != [] && s.halt.raised == s.halt.stops[0].0 <==> !Interrupted(mode, es)))
      && s.halt.cancels <= 1
  {
    RunsKeep(mode, es);
    PassedMeansInterrupted(mode, es);
  }

  /**
   If the user did, `run` raises that interrupt, with no stop and no `Stopping` reported;
   or, if a stop came before the end, the cancellation that it brought. Either way there
   was the lock to release, and nothing else.
   */
  lemma AnInterruptPassesThrough(mode: Mode, es: seq<Event>)
    ensures var s := After(mode, es);
      s.at == Ended && Interrupted(mode, es) ==>
        && s.halt.raised == Some(if s.halt.stops == [] then KeyboardInterrupt else CancelledError)
        && (s.halt.phase == Stopping <==> s.halt.stops != [])
        && s.exits.registered == [ReleaseLock]
  {
    hide Inv, Befell;
    RunsKeep(mode, es);
    PassedMeansInterrupted(mode, es);
    if After(mode, es).halt.passing.Some? {
      WhatIsPassedOn(After(mode, es));
    }
  }

  lemma WhatIsPassedOn(s: State)
    requires Inv(s) && s.halt.passing.Some?
    ensures s.exits.registered == [ReleaseLock] && (s.halt.phase == Stopping <==> s.halt.stops != [])
    ensures s.at == Ended ==> s.halt.raised == Some(if s.halt.stops == [] then KeyboardInterrupt else CancelledError)
  {
  }

  /** The main task has nothing more to be told of. */
  lemma TheMainTaskIsDone(s: State, e: Event)
    requires CleaningUp(s.at) && OfMain(e)
    ensures MainNext(s, e) == s
  {
  }

  lemma TaskFailureNext(s: State, task: Task, error: Error)
    requires Inv(s) && CleaningUp(s.at)
    ensures var t := TaskFailure(s, task, error);
      && t.halt.cancels == s.halt.cancels && t.halt.why == s.halt.why
  {
    if task in s.w.tasks {
      TasksComeLater(s, task);
    }
  }

  lemma MonitorNext(s: State, state: JobState)
    requires Inv(s) && CleaningUp(s.at)
    ensures var t := MonitorTurn(s, state);
      && t.halt.cancels == s.halt.cancels && t.halt.why == s.halt.why
  {
    if Monitor in s.w.tasks {
      TasksComeLater(s, Monitor);
    }
  }

  lemma WatcherNext(s: State)
    requires Inv(s) && CleaningUp(s.at)
    ensures WatcherTurn(s).halt.cancels == s.halt.cancels && WatcherTurn(s).halt.why == s.halt.why
  {
    if Watcher in s.w.tasks {
      TasksComeLater(s, Watcher);
    }
  }

  predicate FirstInCleanup(s: State, e: Event) {
    e.Interrupt? && s.at == Unwinding && s.exits.stack != [] && s.halt.why.None?
  }

  /** Only a Ctrl+C that is the first to stop the tunnel does anything to the main task by then. */
  lemma CleaningUpNext(s: State, e: Event)
    requires Inv(s) && CleaningUp(s.at)
    ensures Next(s, e).halt.why == if FirstInCleanup(s, e) then Some(CtrlC) else s.halt.why
    ensures Next(s, e).halt.cancels == s.halt.cancels + if FirstInCleanup(s, e) then 1 else 0
  {
    hide Inv, MainNext, TaskNext, CleanupNext, AroundNext;
    if OfMain(e) {
      TheMainTaskIsDone(s, e);
    } else if OfTasks(e) {
      TaskInCleanup(s, e);
    } else if e.CleanUp? || e.Exit? {
      CleanupPasses(s, e);
    } else if !e.OldBlock? {
      AroundPasses(s, e);
    }
  }

  lemma TaskInCleanup(s: State, e: Event)
    requires Inv(s) && CleaningUp(s.at)
    ensures TaskNext(s, e).halt.why == if FirstInCleanup(s, e) then Some(CtrlC) else s.halt.why
    ensures TaskNext(s, e).halt.cancels == s.halt.cancels + if FirstInCleanup(s, e) then 1 else 0
  {
    hide Inv, WatcherTurn, TaskFailure, MonitorTurn;
    match e
    case WatcherSees => WatcherNext(s);
    case TaskFails(task, code) => TaskFailureNext(s, task, Failure(code));
    case MonitorPolled(state) => MonitorNext(s, state);
    case _ =>
  }

  /** An interrupt comes to nobody that was stopped before. */
  lemma PromptsAreUnstopped(s: State, e: Event)
    requires Inv(s) && e.PromptInterrupted? && AtPrompt(s)
    ensures Next(s, e).halt.why.None? && s.at != Unwinding
  {
  }

  lemma PassingMeansCleaningUp(s: State)
    requires Inv(s) && s.halt.passing.Some?
    ensures CleaningUp(s.at) && (s.at == Ended ==> !(s.halt.passing == Some(KeyboardInterrupt) && s.halt.why.Some?))
  {
  }

  lemma UnwindingUnstopped(s: State)
    requires Inv(s) && CleaningUp(s.at) && s.halt.why.None?
    ensures s.halt.passing.Some?
  {
  }

  /** Whether the interrupt was followed by a stop, after one more event. */
  lemma StopInCleanupNext(s: State, e: Event)
    requires Inv(s)
    ensures var t := Next(s, e);
      t.halt.passing.Some? && t.halt.why.Some?
      <==> (s.halt.passing.Some? && s.halt.why.Some?) || Befalls(CleanupCancel, s, e)
  {
    PassingNext(s, e);
    if CleaningUp(s.at) {
      CleaningUpNext(s, e);
      if s.halt.why.None? {
        UnwindingUnstopped(s);
      }
    }
    if s.halt.passing.Some? {
      PassingMeansCleaningUp(s);
    } else if e.PromptInterrupted? && AtPrompt(s) {
      PromptsAreUnstopped(s, e);
    }
  }

  /**
   The main task is cancelled while it cleans up exactly if a prompt was interrupted, and
   there was a stop then before the end.
   */
  lemma {:induction false} TheCleanupIsCancelledOnlyThen(mode: Mode, es: seq<Event>)
    ensures Befell(CleanupCancel, mode, es) <==> Interrupted(mode, es) && After(mode, es).halt.stops != []
  {
    RunsKeep(mode, es);
    PassedMeansInterrupted(mode, es);
    StoppedExactlyIfCalled(After(mode, es));
    if es != [] {
      hide Inv, Next, Befell, Befalls;
      var before := es[..|es| - 1];
      TheCleanupIsCancelledOnlyThen(mode, before);
      RunsKeep(mode, before);
      PassedMeansInterrupted(mode, before);
      StoppedExactlyIfCalled(After(mode, before));
      StopInCleanupNext(After(mode, before), es[|es| - 1]);
      BefellNext(CleanupCancel, mode, es);
    }
  }

  lemma StoppedExactlyIfCalled(s: State)
    requires Inv(s)
    ensures s.halt.why.Some? <==> s.halt.stops != []
  {
  }

  /** And exactly then is a cleanup step cut short: the lock's release, which is the only one. */
  lemma ACancelledCleanupIsCutShort(mode: Mode, es: seq<Event>)
    ensures var s := After(mode, es);
      s.at == Ended ==>
        if Befell(CleanupCancel, mode, es)
        then exists outcome :: s.exits.ran == [Cut(ReleaseLock, outcome)]
        else NoneCut(s.exits.ran)
  {
    RunsKeep(mode, es);
    PassedMeansInterrupted(mode, es);
    TheCleanupIsCancelledOnlyThen(mode, es);
    var s := After(mode, es);
    if s.at == Ended && Befell(CleanupCancel, mode, es) {
      StoppedExactlyIfCalled(s);
      assert s.exits.ran == [Cut(ReleaseLock, s.exits.ran[0].outcome)];
    }
  }

  lemma ToPrompt(mode: Mode)
    ensures var s := After(mode, [TakeLock(true), PromptInterrupted]);
      && s.at == Unwinding && s.exits == Exits([ReleaseLock], [ReleaseLock], []) && s.w.lock
      && s.halt == Halt(None, None, false, false, Some(KeyboardInterrupt), Connecting, [], 0, None)
  {
    var es := [TakeLock(true), PromptInterrupted];
    assert es[..1] == [TakeLock(true)] && es[..1][..0] == [];
    var s := Next(Init(mode), TakeLock(true));
    assert After(mode, es[..1]) == s;
    assert After(mode, es) == Next(s, PromptInterrupted);
    assert [] + [ReleaseLock] == [ReleaseLock];
  }

  /** A run that ends so, without a stop. */
  lemma AnInterruptEndsWithoutAStop(mode: Mode)
    ensures var s := After(mode, [TakeLock(true), PromptInterrupted] + [CleanUp(Fine), Exit]);
      && s.at == Ended && s.halt.stops == [] && s.halt.raised == Some(KeyboardInterrupt)
      && s.halt.phase == Connecting && !s.w.lock
  {
    hide Next;
    ToPrompt(mode);
    AfterFrom(mode, [TakeLock(true), PromptInterrupted], [CleanUp(Fine), Exit]);
    var s := After(mode, [TakeLock(true), PromptInterrupted]);
    FromCons(s, CleanUp(Fine), [Exit]);
    assert [CleanUp(Fine)] + [Exit] == [CleanUp(Fine), Exit];
    FromOne(Next(s, CleanUp(Fine)), Exit);
    ReleasedAfterAll(s);
  }

  lemma ReleasedAfterAll(s: State)
    requires s.at == Unwinding && s.exits == Exits([ReleaseLock], [ReleaseLock], [])
    requires s.halt == Halt(None, None, false, false, Some(KeyboardInterrupt), Connecting, [], 0, None)
    ensures var t := Next(Next(s, CleanUp(Fine)), Exit);
      && t.at == Ended && t.halt.stops == [] && t.halt.raised == Some(KeyboardInterrupt)
      && t.halt.phase == Connecting && !t.w.lock
  {
  }

  /** A run in which one more Ctrl+C cuts the lock's release short. */
  lemma AStopCutsTheReleaseShort(mode: Mode)
    ensures var s := After(mode, [TakeLock(true), PromptInterrupted] + [Interrupt, CleanUp(Broken), Exit]);
      && s.at == Ended && s.halt.raised == Some(CancelledError) && s.halt.phase == Stopping
      && s.exits.ran == [Cut(ReleaseLock, Broken)] && s.w.lock
  {
    hide Next;
    ToPrompt(mode);
    AfterFrom(mode, [TakeLock(true), PromptInterrupted], [Interrupt, CleanUp(Broken), Exit]);
    var s := After(mode, [TakeLock(true), PromptInterrupted]);
    From3(s, Interrupt, CleanUp(Broken), Exit);
    ReleaseCutShort(s);
  }

  lemma ReleaseCutShort(s: State)
    requires s.at == Unwinding && s.exits == Exits([ReleaseLock], [ReleaseLock], []) && s.w.lock
    requires s.halt == Halt(None, None, false, false, Some(KeyboardInterrupt), Connecting, [], 0, None)
    ensures var t := Next(Next(Next(s, Interrupt), CleanUp(Broken)), Exit);
      && t.at == Ended && t.halt.raised == Some(CancelledError) && t.halt.phase == Stopping
      && t.exits.ran == [Cut(ReleaseLock, Broken)] && t.w.lock
  {
    var told := Next(s, Interrupt);
    assert told == Stop(s, None, CtrlC) && told.exits == s.exits && told.w == s.w;
    assert told.halt.pending && told.halt.phase == Stopping && told.at == Unwinding;
    var cut := Next(told, CleanUp(Broken));
    assert cut.exits.stack == [] && cut.exits.ran == [] + [Cut(ReleaseLock, Broken)] == [Cut(ReleaseLock, Broken)];
  }

  // The phase

  /** The reported phase only moves forward, and stays at `Stopping`. */
  lemma ThePhaseMovesForward(mode: Mode, es: seq<Event>, e: Event)
    ensures After(mode, es).halt.phase.Rank() <= Next(After(mode, es), e).halt.phase.Rank()
  {
    hide Inv, Next;
    RunsKeep(mode, es);
    var s := After(mode, es);
    NextKeeps(s, e);
    PhaseReported(s);
    PhaseReported(Next(s, e));
    if s.halt.why.Some? {
      StoppedNext(s, e, Withdraw);
    } else if Next(s, e).halt.why.None? {
      UnstoppedMovesForward(s, e);
    }
  }

  lemma PhaseReported(s: State)
    requires Inv(s)
    ensures s.halt.phase == if s.halt.why.Some? then Stopping else PhaseAt(s.at)
  {
  }

  lemma UnstoppedMovesForward(s: State, e: Event)
    requires Inv(s) && s.halt.why.None? && Next(s, e).halt.why.None? && Inv(Next(s, e))
    ensures PhaseAt(s.at).Rank() <= PhaseAt(Next(s, e).at).Rank()
  {
    hide Inv, Next, AtPrompt;
    PassingNext(s, e);
    if s.halt.passing.Some? {
      PassingMeansCleaningUp(s);
    } else if CleaningUp(Next(s, e).at) {
      UnwindingUnstopped(Next(s, e));
      PromptsComeEarly(s);
    } else {
      ComesNoFurtherBack(s, e);
    }
  }

  lemma PromptsComeEarly(s: State)
    ensures AtPrompt(s) ==> PhaseAt(s.at) == Connecting
  {
  }

  lemma ComesNoFurtherBack(s: State, e: Event)
    requires !CleaningUp(Next(s, e).at)
    ensures PhaseAt(s.at).Rank() <= PhaseAt(Next(s, e).at).Rank()
  {
    hide MainNext, TaskNext, AroundNext, CleanupNext;
    if e.OldBlock? || s.at == Begin {
    } else if OfMain(e) {
      MainTurnMovesForward(s, e);
    } else if e.CleanUp? || e.Exit? {
      CleanupStaysAt(s, e);
    } else if OfTasks(e) {
      TasksStayAt(s, e);
    } else {
      AroundStaysAt(s, e);
    }
  }

  lemma MainTurnMovesForward(s: State, e: Event)
    requires OfMain(e) && !CleaningUp(MainNext(s, e).at)
    ensures PhaseAt(s.at).Rank() <= PhaseAt(MainNext(s, e).at).Rank()
  {
  }

  // A listener left behind

  lemma NothingListens(s: State, e: Event)
    ensures MainNext(s, e).w.stray ==> s.w.stray
  {
    match e
    case Proceed => ProceedingListens(s);
    case Fail(code) => MainFailsLeavesTheWorld(s, Failure(code));
    case Turn => TurnsListen(s);
    case Polled(state, hosted) => PollsLeaveTheWorld(s, state, hosted);
    case _ =>
  }

  lemma ProceedingListens(s: State)
    ensures Proceeds(s).w.stray ==> s.w.stray && s.at != ForwardAt
  {
    assert !Forwards(s).w.stray;
    assert Connects(s).w.stray == OpensSftp(s).w.stray == LearnsPort(s).w.stray == s.w.stray;
    assert StartsSubmission(s).w == s.w;
  }

  lemma TurnsListen(s: State)
    ensures Turns(s).w.stray == s.w.stray
  {
    if s.at == GatherAt {
      assert GatherTurn(s).w == s.w;
    } else if s.at == SubmitAt && s.waits.submitting.Some? {
      assert SubmitTurn(s).w == s.w;
    } else if s.at == PublishAt && s.waits.publishing.Some? {
      assert PublishTurn(s).w.stray == s.w.stray;
    }
  }

  predicate StrayOk(s: State) {
    s.w.stray ==> s.at == ForwardAt || CleaningUp(s.at)
  }

  predicate StrayNow(s: State) {
    s.w.stray && s.at != ForwardAt
  }

  /** A turn at which the main task may be given the listener, or lose it. */
  lemma ForwardTurn(s: State, e: Event)
    requires s.at == ForwardAt && OfMain(e)
    ensures var t := MainNext(s, e); StrayOk(t) && (StrayNow(t) <==> Befalls(ListenerLoss, s, e))
  {
  }

  lemma MainStray(s: State, e: Event)
    requires StrayOk(s) && OfMain(e) && s.at != Begin
    ensures var t := MainNext(s, e); StrayOk(t) && (StrayNow(t) <==> StrayNow(s) || Befalls(ListenerLoss, s, e))
  {
    if s.at == ForwardAt {
      ForwardTurn(s, e);
    } else if CleaningUp(s.at) {
      TheMainTaskIsDone(s, e);
    } else {
      NothingListens(s, e);
    }
  }

  /** Nothing else brings the main task anywhere but to its end. */
  predicate StaysAt(s: State, t: State) {
    t.w.stray == s.w.stray && (t.at == s.at || (s.at == Unwinding && t.at == Ended))
  }

  lemma TasksStayAt(s: State, e: Event)
    ensures StaysAt(s, TaskNext(s, e))
  {
    match e
    case WatcherSees => assert StaysAt(s, Stop(s, Some(ConnectionLost), Because(ConnectionLost)));
    case TaskFails(task, code) => assert StaysAt(s, TaskFailure(s, task, Failure(code)));
    case MonitorPolled(state) => MonitorStaysAt(s, state);
    case _ =>
  }

  lemma MonitorStaysAt(s: State, state: JobState)
    ensures StaysAt(s, MonitorTurn(s, state))
  {
    var inspected := s.(job := Inspects(s.job, state));
    assert StaysAt(s, TaskFailure(inspected, Monitor, StrangeState));
    assert StaysAt(s, Stop(inspected, None, JobEnded(state)));
  }

  lemma CleanupStaysAt(s: State, e: Event)
    ensures StaysAt(s, CleanupNext(s, e))
  {
    if s.exits.stack != [] && e.CleanUp? {
      EffectLeaves(s.w, s.exits.stack[|s.exits.stack| - 1], e.outcome, s.job.finished);
    }
  }

  lemma AroundStaysAt(s: State, e: Event)
    ensures e.Listens? || StaysAt(s, AroundNext(s, e))
    ensures AroundNext(s, e).at == s.at
  {
    if e.LoseLogin? {
      assert Lose(s.w).stray == s.w.stray;
    }
  }

  lemma StrayNext(s: State, e: Event)
    requires StrayOk(s)
    ensures var t := Next(s, e); StrayOk(t) && (StrayNow(t) <==> StrayNow(s) || Befalls(ListenerLoss, s, e))
  {
    if e.OldBlock? || s.at == Begin {
    } else if OfMain(e) {
      MainStray(s, e);
    } else if e.CleanUp? || e.Exit? {
      CleanupStaysAt(s, e);
    } else if OfTasks(e) {
      TasksStayAt(s, e);
    } else if !e.Listens? {
      AroundStaysAt(s, e);
    }
  }

  /**
   Once the main task has gone on, a listener that it does not have is left exactly if a
   stop was delivered after the socket began to listen, and before it had the result.
   */
  lemma {:induction false} AListenerIsLeftStray(mode: Mode, es: seq<Event>)
    ensures StrayNow(After(mode, es)) <==> Befell(ListenerLoss, mode, es)
    ensures StrayOk(After(mode, es))
  {
    if es != [] {
      hide Next, Befell, Befalls, StrayNow, StrayOk;
      var before := es[..|es| - 1];
      AListenerIsLeftStray(mode, before);
      StrayNext(After(mode, before), es[|es| - 1]);
      BefellNext(ListenerLoss, mode, es);
    }
  }

  const TO_FORWARD: seq<Event> :=
    [Submission(F.Completes("7")), Turn, Polled(Running, true)] + ([Proceed, Proceed] + [Listens])

  lemma ToForward()
    ensures var s := After(Batch, TO_GATHER + (TO_SUBMISSION + TO_FORWARD)); Unharmed(s, ForwardAt) && s.w.stray
  {
    ToGather(Batch);
    ModeStays(Batch, TO_GATHER);
    var s := After(Batch, TO_GATHER);
    ToSubmission(s);
    var t := From(s, TO_SUBMISSION);
    var job := [Submission(F.Completes("7")), Turn, Polled(Running, true)];
    RunJob(t);
    LearnAndListen(From(t, job));
    FromConcat(t, job, [Proceed, Proceed] + [Listens]);
    FromConcat(s, TO_SUBMISSION, TO_FORWARD);
    AfterFrom(Batch, TO_GATHER, TO_SUBMISSION + TO_FORWARD);
  }

  lemma LearnAndListen(s: State)
    requires Unharmed(s, PortAt)
    ensures var t := From(s, [Proceed, Proceed] + [Listens]); Unharmed(t, ForwardAt) && t.w.stray
  {
    assert [Proceed, Proceed] + [Listens] == [Proceed, Proceed, Listens];
    From3(s, Proceed, Proceed, Listens);
    Learn(s);
  }

  lemma Learn(s: State)
    requires Unharmed(s, PortAt)
    ensures Unharmed(Next(Next(s, Proceed), Proceed), ForwardAt)
  {
  }

  lemma StopWhileListening(s: State)
    requires Unharmed(s, ForwardAt) && s.w.stray && Inv(s)
    ensures var t := Next(Next(s, Interrupt), Deliver);
      && t.at == Unwinding && t.w.stray && t.exits == s.exits && t.exits.ran == [] && !t.halt.pending
  {
  }

  /** So a stop may leave a listener to the end, though every cleanup step did what it is for. */
  lemma AStopMayLeaveAListener()
    ensures exists es :: var s := After(Batch, es); s.at == Ended && s.w.stray && Spoiled(s.exits.ran) == {}
  {
    hide Next, Inv, Spoiled, Unharmed;
    var es := TO_GATHER + (TO_SUBMISSION + TO_FORWARD);
    ToForward();
    RunsKeep(Batch, es);
    var s := After(Batch, es);
    StopWhileListening(s);
    var t := Next(Next(s, Interrupt), Deliver);
    var rest := CleanUps(seq(|t.exits.stack|, _ => Fine)) + [Exit];
    EndsStray(t);
    FromTwo(s, Interrupt, Deliver, rest);
    AfterFrom(Batch, es, [Interrupt] + ([Deliver] + rest));
  }

  lemma EndsStray(s: State)
    requires s.at == Unwinding && s.w.stray && s.exits.ran == [] && !s.halt.pending
    ensures var t := From(s, CleanUps(seq(|s.exits.stack|, _ => Fine)) + [Exit]);
      t.at == Ended && t.w.stray && Spoiled(t.exits.ran) == {}
  {
    var outcomes := seq(|s.exits.stack|, _ => Fine);
    RunCleanUps(s, outcomes);
    FromOne(From(s, CleanUps(outcomes)), Exit);
    FromConcat(s, CleanUps(outcomes), [Exit]);
  }
}
