/** When each thing that a session holds comes about, and when it goes: in every run, by these events and no others. */
module SessionHolds {
  import opened Prelude
  import F = Finishing
  import opened Session
  import opened SessionInvariants
  import opened SessionResults
  import opened SessionServes

  /** What the main task awaited there succeeded. */
  predicate Succeeds(s: State, e: Event, at: At) {
    e.Proceed? && s.at == at && !s.halt.pending
  }

  predicate OpensJob(s: State, e: Event) {
    e.ShellOpened? && s.at == SubmitAt && s.mode == Interactive && !s.halt.pending
  }

  /** The publication returned, and no stop has come. */
  predicate HasPublished(s: State, e: Event) {
    && e.Turn? && s.at == PublishAt && s.waits.publishing.Some?
    && s.waits.publishing.value.step.Gave? && !s.waits.publishing.value.cancelled
    && s.waits.publishing.value.at == F.Shielded
  }

  /** The cleanup step is over, however it went. */
  predicate Runs(s: State, e: Event, step: Cleanup) {
    && e.CleanUp? && s.at == Unwinding
    && s.exits.stack != [] && s.exits.stack[|s.exits.stack| - 1] == step
  }

  /** And did what it is for. */
  predicate Undoes(s: State, e: Event, step: Cleanup) {
    Runs(s, e, step) && e.outcome == Fine
  }

  /** An answer processed so far says that the job is over. */
  ghost predicate JobIsOver(s: State) {
    exists i :: 0 <= i < |s.job.inspected| && s.job.inspected[i] in {Succeeded, JobState.Failed, Gone}
  }

  ghost predicate LoginAndLock(s: State, e: Event, t: State) {
    && (t.w.lock <==> (s.at == Begin && e.TakeLock? && e.free) || (s.w.lock && !Undoes(s, e, ReleaseLock)))
    && (t.w.login <==> Succeeds(s, e, ConnectAt) || (s.w.login && !e.LoseLogin? && !Undoes(s, e, CloseLogin)))
    && (t.w.lost <==> s.w.lost || (s.w.login && e.LoseLogin?))
  }

  ghost predicate OnTheLogin(s: State, e: Event, t: State) {
    && (t.w.sftp <==>
          || (Succeeds(s, e, SftpAt) && !s.w.lost)
          || (s.w.sftp && !e.LoseLogin? && !Undoes(s, e, CloseSftp) && !Undoes(s, e, CloseLogin)))
    && (t.w.port <==>
          || (Succeeds(s, e, ForwardAt) && !s.w.lost)
          || (s.w.port && !e.LoseLogin? && !Undoes(s, e, ClosePort) && !Undoes(s, e, CloseLogin)))
  }

  /** The shell is closed when its output is to stop, but not if the job is over; and in any case after that. */
  ghost predicate DirectoryAndShell(s: State, e: Event, t: State) {
    && (t.w.control <==> (e.ControlAppears? && UnderWay(s.waits.creating)) || (s.w.control && !Undoes(s, e, RemoveControl)))
    && (t.w.shell <==>
          || OpensJob(s, e)
          || (s.w.shell && !Runs(s, e, CloseShell) && !(Runs(s, e, StopTask(Output)) && !JobIsOver(s))))
  }

  ghost predicate BlockAndListener(s: State, e: Event, t: State) {
    && t.w.block == (if e.OldBlock? then Stale
                     else if s.at == Begin then s.w.block
                     else if e.BlockAppears? && UnderWay(s.waits.publishing) then Own
                     else if e.BlockGoes? || Undoes(s, e, Withdraw) then NoBlock
                     else s.w.block)
    && (t.w.stray <==>
          || (e.Listens? && s.at == ForwardAt && !s.halt.pending)
          || (s.w.stray && !Succeeds(s, e, ForwardAt)))
  }

  /** What starts each task. */
  predicate StartsTask(s: State, e: Event, task: Task) {
    match task
    case Watcher => Succeeds(s, e, ConnectAt)
    case Output => OpensJob(s, e)
    case Heartbeats => Succeeds(s, e, PortAt)
    case Monitor => HasPublished(s, e)
  }

  /** It returns, fails, sees the connection lost, or has news of the job. */
  predicate EndsTask(s: State, e: Event, task: Task) {
    || e == TaskEnds(task)
    || (e.TaskFails? && e.task == task)
    || (e.WatcherSees? && task == Watcher && s.w.lost)
    || (e.MonitorPolled? && task == Monitor && e.state in {Unknown, Succeeded, JobState.Failed, Gone})
  }

  ghost predicate TheTask(s: State, e: Event, t: State, task: Task) {
    task in t.w.tasks <==>
      StartsTask(s, e, task) || (task in s.w.tasks && !EndsTask(s, e, task) && !Undoes(s, e, StopTask(task)))
  }

  /** All of it. */
  ghost predicate ComesAndGoes(s: State, e: Event, t: State) {
    && LoginAndLock(s, e, t) && OnTheLogin(s, e, t) && DirectoryAndShell(s, e, t) && BlockAndListener(s, e, t)
    && forall task :: TheTask(s, e, t, task)
  }

  // The main task

  function MainWorld(s: State, e: Event): World {
    if Succeeds(s, e, ConnectAt) then StartTask(s.w.(login := true), Watcher)
    else if Succeeds(s, e, SftpAt) then s.w.(sftp := !s.w.lost)
    else if Succeeds(s, e, PortAt) then StartTask(s.w, Heartbeats)
    else if Succeeds(s, e, ForwardAt) then s.w.(port := !s.w.lost, stray := false)
    else if OpensJob(s, e) then StartTask(s.w.(shell := true), Output)
    else if HasPublished(s, e) then StartTask(s.w, Monitor)
    else s.w
  }

  lemma TurnWorld(s: State)
    requires s.at == PublishAt && s.waits.publishing.Some? ==> !s.waits.publishing.value.Ended()
    ensures Turns(s).w == if HasPublished(s, Turn) then StartTask(s.w, Monitor) else s.w
  {
    if s.at == GatherAt {
      MainFailsLeavesTheWorld(s, Failure(1));
    } else if s.at == SubmitAt && s.waits.submitting.Some? {
      assert SubmitTurn(s).w == s.w;
    } else if s.at == PublishAt && s.waits.publishing.Some? {
      PublishWorld(s);
    }
  }

  lemma PublishWorld(s: State)
    requires s.at == PublishAt && s.waits.publishing.Some? && !s.waits.publishing.value.Ended()
    ensures PublishTurn(s).w == if HasPublished(s, Turn) then StartTask(s.w, Monitor) else s.w
  {
  }

  lemma PublishingGoesOn(s: State)
    requires Inv(s)
    ensures s.at == PublishAt && s.waits.publishing.Some? ==> !s.waits.publishing.value.Ended()
  {
  }

  lemma NotYet(s: State)
    requires Inv(s)
    ensures (s.at == SftpAt ==> !s.w.sftp) && (s.at == ForwardAt ==> !s.w.port)
  {
    hide Finishes, Halted, Passed, Jobs, Lasting, Settled;
    var j := JobSteps(s.mode);
    assert PlanAt(s.mode, "", 3) == CloseSftp && PlanAt(s.mode, "", 6 + j) == ClosePort;
    if s.at == SftpAt {
      assert Spoiled(s.exits.ran) == {} && |s.exits.stack| == 3;
      assert Holds(s.w, PlanAt(s.mode, "", 3)) <==> s.w.sftp;
    } else if s.at == ForwardAt {
      assert Spoiled(s.exits.ran) == {} && |s.exits.stack| == 6 + j;
      assert Holds(s.w, PlanAt(s.mode, "", 6 + j)) <==> s.w.port;
    }
  }

  lemma ProceedWorld(s: State)
    requires !s.halt.pending
    ensures Proceeds(s).w == MainWorld(s, Proceed)
  {
  }

  lemma MainsWorld(s: State, e: Event)
    requires Inv(s) && OfMain(e) && s.at != Begin
    ensures MainNext(s, e).w == MainWorld(s, e)
  {
    hide Inv, Proceeds, Turns, Polls;
    match e
    case Proceed => if !s.halt.pending { ProceedWorld(s); }
    case Turn => PublishingGoesOn(s); TurnWorld(s);
    case Polled(state, hosted) => PollsLeaveTheWorld(s, state, hosted);
    case _ =>
  }

  lemma OnlyMain(s: State, e: Event)
    requires OfMain(e)
    ensures !e.OldBlock? && !e.LoseLogin? && !e.ControlAppears? && !e.BlockAppears? && !e.BlockGoes? && !e.Listens?
    ensures !e.TakeLock? && forall task :: !EndsTask(s, e, task)
    ensures forall step :: !Runs(s, e, step) && !Undoes(s, e, step)
  {
  }

  lemma MainGives(s: State, e: Event, t: State)
    requires OfMain(e) && s.at != Begin && t.w == MainWorld(s, e)
    requires (s.at == SftpAt ==> !s.w.sftp) && (s.at == ForwardAt ==> !s.w.port)
    ensures ComesAndGoes(s, e, t)
  {
    OnlyMain(s, e);
    hide Runs, Undoes, OfMain, JobIsOver, EndsTask;
    if e.Proceed? {
      assert !OpensJob(s, e) && !HasPublished(s, e);
      hide OpensJob, HasPublished, MainWorld, LoginAndLock, OnTheLogin, DirectoryAndShell, BlockAndListener, TheTask;
      ProceedingGives(s, e, t);
      ProceedingStarts(s, e, t);
    } else {
      assert forall at :: !Succeeds(s, e, at);
      hide Succeeds;
    }
  }

  ghost predicate Gives(s: State, e: Event, t: State) {
    LoginAndLock(s, e, t) && OnTheLogin(s, e, t) && DirectoryAndShell(s, e, t) && BlockAndListener(s, e, t)
  }

  lemma ConnectingGives(s: State, e: Event, t: State)
    requires e.Proceed? && s.at != Begin && !OpensJob(s, e) && Succeeds(s, e, ConnectAt)
    requires t.w == s.w.(login := true, tasks := s.w.tasks + {Watcher})
    ensures Gives(s, e, t)
  {
    OnlyMain(s, e);
    assert forall at :: Succeeds(s, e, at) <==> !s.halt.pending && at == s.at;
    hide Succeeds, Runs, Undoes, JobIsOver, OpensJob;
  }

  lemma SftpGives(s: State, e: Event, t: State)
    requires e.Proceed? && s.at != Begin && !OpensJob(s, e) && Succeeds(s, e, SftpAt) && !s.w.sftp
    requires t.w == s.w.(sftp := !s.w.lost)
    ensures Gives(s, e, t)
  {
    OnlyMain(s, e);
    assert forall at :: Succeeds(s, e, at) <==> !s.halt.pending && at == s.at;
    hide Succeeds, Runs, Undoes, JobIsOver, OpensJob;
  }

  lemma ForwardingGives(s: State, e: Event, t: State)
    requires e.Proceed? && s.at != Begin && !OpensJob(s, e) && Succeeds(s, e, ForwardAt) && !s.w.port
    requires t.w == s.w.(port := !s.w.lost, stray := false)
    ensures Gives(s, e, t)
  {
    OnlyMain(s, e);
    assert forall at :: Succeeds(s, e, at) <==> !s.halt.pending && at == s.at;
    hide Succeeds, Runs, Undoes, JobIsOver, OpensJob;
  }

  lemma OtherProceedsGive(s: State, e: Event, t: State)
    requires e.Proceed? && s.at != Begin && !OpensJob(s, e) && !Succeeds(s, e, ConnectAt) && !Succeeds(s, e, SftpAt) && !Succeeds(s, e, ForwardAt)
    requires t.w == s.w.(tasks := t.w.tasks)
    ensures Gives(s, e, t)
  {
    OnlyMain(s, e);
    assert forall at :: Succeeds(s, e, at) <==> !s.halt.pending && at == s.at;
    hide Succeeds, Runs, Undoes, JobIsOver, OpensJob;
  }

  lemma ProceedingGives(s: State, e: Event, t: State)
    requires e.Proceed? && s.at != Begin && t.w == MainWorld(s, e) && !OpensJob(s, e) && !HasPublished(s, e)
    requires (s.at == SftpAt ==> !s.w.sftp) && (s.at == ForwardAt ==> !s.w.port)
    ensures Gives(s, e, t)
  {
    hide Gives, OpensJob, HasPublished;
    if Succeeds(s, e, ConnectAt) {
      ConnectingGives(s, e, t);
    } else if Succeeds(s, e, SftpAt) {
      SftpGives(s, e, t);
    } else if Succeeds(s, e, ForwardAt) {
      ForwardingGives(s, e, t);
    } else {
      OtherProceedsGive(s, e, t);
    }
  }

  lemma ProceedingStarts(s: State, e: Event, t: State)
    requires e.Proceed? && s.at != Begin && t.w == MainWorld(s, e) && !OpensJob(s, e) && !HasPublished(s, e)
    requires (s.at == SftpAt ==> !s.w.sftp) && (s.at == ForwardAt ==> !s.w.port)
    ensures forall task :: TheTask(s, e, t, task)
  {
    OnlyMain(s, e);
    hide Runs, Undoes, OfMain, JobIsOver, EndsTask, OpensJob, HasPublished;
  }

  lemma MainComesAndGoes(s: State, e: Event)
    requires Inv(s) && OfMain(e) && s.at != Begin
    ensures ComesAndGoes(s, e, MainNext(s, e))
  {
    hide Inv, MainNext, MainWorld, ComesAndGoes;
    MainsWorld(s, e);
    NotYet(s);
    MainGives(s, e, MainNext(s, e));
  }

  // The others

  lemma JobIsOverIfFinished(s: State)
    requires Inv(s)
    ensures s.job.finished == JobIsOver(s)
  {
  }

  lemma EffectComesAndGoes(s: State, e: Event)
    requires s.at == Unwinding && e.CleanUp? && s.exits.stack != [] && s.job.finished == JobIsOver(s)
    ensures ComesAndGoes(s, e, CleansUp(s, e.outcome))
  {
    hide JobIsOver;
  }

  lemma NothingComes(s: State, e: Event)
    requires s.at != Begin && (e.CleanUp? || e.Exit?)
    requires !(s.at == Unwinding && e.CleanUp? && s.exits.stack != [])
    ensures CleanupNext(s, e).w == s.w && ComesAndGoes(s, e, CleanupNext(s, e))
  {
    hide JobIsOver, CleansUp;
  }

  lemma CleanupComesAndGoes(s: State, e: Event)
    requires Inv(s) && s.at != Begin && (e.CleanUp? || e.Exit?)
    ensures ComesAndGoes(s, e, CleanupNext(s, e))
  {
    JobIsOverIfFinished(s);
    hide Inv, CleansUp, JobIsOver, ComesAndGoes;
    if s.at == Unwinding && e.CleanUp? && s.exits.stack != [] {
      EffectComesAndGoes(s, e);
    } else {
      NothingComes(s, e);
    }
  }

  lemma StopHolds(s: State, error: Option<Error>, why: Why)
    ensures Stop(s, error, why).w == s.w
  {
  }

  lemma FailureWorld(s: State, task: Task, error: Error)
    ensures TaskFailure(s, task, error).w == if task in s.w.tasks then EndTask(s.w, task) else s.w
  {
    hide Stop;
    var blamed := Blame(s.w.lost, error);
    StopHolds(s, Some(blamed), Because(blamed));
  }

  lemma MonitorWorld(s: State, state: JobState)
    ensures MonitorTurn(s, state).w ==
      if Monitor in s.w.tasks && state in {Unknown, Succeeded, JobState.Failed, Gone} then EndTask(s.w, Monitor) else s.w
  {
    hide Stop, TaskFailure;
    var inspected := s.(job := Inspects(s.job, state));
    FailureWorld(inspected, Monitor, StrangeState);
    StopHolds(inspected, None, JobEnded(state));
  }

  /** The only one that the event may end. */
  function Concerned(s: State, e: Event): Option<Task> {
    match e
    case TaskEnds(task) => Some(task)
    case TaskFails(task, _) => Some(task)
    case WatcherSees => if s.w.lost then Some(Watcher) else None
    case MonitorPolled(state) => if state in {Unknown, Succeeded, JobState.Failed, Gone} then Some(Monitor) else None
    case _ => None
  }

  lemma TasksWorld(s: State, e: Event)
    requires OfTasks(e)
    ensures var w, one := TaskNext(s, e).w, Concerned(s, e);
      w == if one.Some? && one.value in s.w.tasks then EndTask(s.w, one.value)
           else if e.TaskEnds? then EndTask(s.w, e.task) else s.w
  {
    hide Stop, TaskFailure, MonitorTurn, EndTask;
    match e
    case Interrupt => StopHolds(s, None, CtrlC);
    case WatcherSees => StopHolds(s, Some(ConnectionLost), Because(ConnectionLost));
    case TaskFails(task, code) => FailureWorld(s, task, Failure(code));
    case MonitorPolled(state) => MonitorWorld(s, state);
    case TaskEnds(task) =>
  }

  lemma TasksComeAndGo(s: State, e: Event)
    requires OfTasks(e) && s.at != Begin
    ensures ComesAndGoes(s, e, TaskNext(s, e))
  {
    hide TaskNext, JobIsOver;
    TasksWorld(s, e);
  }

  predicate OfAround(s: State, e: Event) {
    s.at != Begin && !OfMain(e) && !OfTasks(e) && !e.CleanUp? && !e.Exit? && !e.OldBlock?
  }

  function AroundsWorld(s: State, e: Event): World {
    if e.ControlAppears? && UnderWay(s.waits.creating) then s.w.(control := true)
    else if e.BlockAppears? && UnderWay(s.waits.publishing) then s.w.(block := Own)
    else if e.Listens? && s.at == ForwardAt && !s.halt.pending then s.w.(stray := true)
    else if e.LoseLogin? then Lose(s.w)
    else if e.BlockGoes? then s.w.(block := NoBlock)
    else s.w
  }

  lemma AroundWorld(s: State, e: Event)
    requires OfAround(s, e)
    ensures AroundNext(s, e).w == AroundsWorld(s, e)
  {
    hide EndSibling, Create, Submit, Publish, Lose, UnderWay;
  }

  /** Such an event is none of the main task's, and no cleanup step's. */
  lemma NotAround(s: State, e: Event)
    requires OfAround(s, e)
    ensures s.at != Begin && !e.OldBlock? && !OpensJob(s, e) && !HasPublished(s, e)
    ensures forall at :: !Succeeds(s, e, at)
    ensures forall step :: !Runs(s, e, step) && !Undoes(s, e, step)
  {
  }

  lemma LosingLoses(w: World)
    requires (w.sftp ==> w.login) && (w.port ==> w.login)
    ensures Lose(w) == w.(login := false, lost := w.lost || w.login, sftp := false, port := false)
  {
  }

  lemma LosingGives(s: State, e: Event, t: State)
    requires OfAround(s, e) && e.LoseLogin?
    requires t.w == s.w.(login := false, lost := s.w.lost || s.w.login, sftp := false, port := false)
    ensures ComesAndGoes(s, e, t)
  {
    NotAround(s, e);
    assert !OfTasks(e);
    hide Succeeds, OpensJob, HasPublished, Runs, Undoes, OfAround, OfMain, JobIsOver, UnderWay;
  }

  lemma ControlGives(s: State, e: Event, t: State)
    requires OfAround(s, e) && e.ControlAppears?
    requires t.w == s.w.(control := s.w.control || UnderWay(s.waits.creating))
    ensures ComesAndGoes(s, e, t)
  {
    NotAround(s, e);
    assert !OfTasks(e);
    hide Succeeds, OpensJob, HasPublished, Runs, Undoes, OfAround, OfMain, JobIsOver, UnderWay;
  }

  lemma BlockGives(s: State, e: Event, t: State)
    requires OfAround(s, e) && (e.BlockAppears? || e.BlockGoes?)
    requires t.w == (if e.BlockGoes? then s.w.(block := NoBlock)
                    else if UnderWay(s.waits.publishing) then s.w.(block := Own) else s.w)
    ensures ComesAndGoes(s, e, t)
  {
    NotAround(s, e);
    assert !OfTasks(e);
    hide Succeeds, OpensJob, HasPublished, Runs, Undoes, OfAround, OfMain, JobIsOver, UnderWay;
  }

  lemma ListenerGives(s: State, e: Event, t: State)
    requires OfAround(s, e) && e.Listens?
    requires t.w == s.w.(stray := s.w.stray || (s.at == ForwardAt && !s.halt.pending))
    ensures ComesAndGoes(s, e, t)
  {
    NotAround(s, e);
    assert !OfTasks(e);
    hide Succeeds, OpensJob, HasPublished, Runs, Undoes, OfAround, OfMain, JobIsOver, UnderWay;
  }

  lemma OthersGive(s: State, e: Event, t: State)
    requires OfAround(s, e) && !e.LoseLogin? && !e.ControlAppears? && !e.BlockAppears? && !e.BlockGoes? && !e.Listens?
    requires t.w == s.w
    ensures ComesAndGoes(s, e, t)
  {
    NotAround(s, e);
    assert !OfTasks(e);
    hide Succeeds, OpensJob, HasPublished, Runs, Undoes, OfAround, OfMain, JobIsOver, UnderWay;
  }

  lemma AroundGives(s: State, e: Event, t: State)
    requires OfAround(s, e) && t.w == AroundsWorld(s, e)
    requires (s.w.sftp ==> s.w.login) && (s.w.port ==> s.w.login)
    ensures ComesAndGoes(s, e, t)
  {
    LosingLoses(s.w);
    hide ComesAndGoes, OfAround, UnderWay, Lose;
    if e.LoseLogin? {
      LosingGives(s, e, t);
    } else if e.ControlAppears? {
      ControlGives(s, e, t);
    } else if e.BlockAppears? || e.BlockGoes? {
      BlockGives(s, e, t);
    } else if e.Listens? {
      ListenerGives(s, e, t);
    } else {
      OthersGive(s, e, t);
    }
  }

  lemma OnTheLoginOnly(s: State)
    requires Kept(s)
    ensures (s.w.sftp ==> s.w.login) && (s.w.port ==> s.w.login)
  {
  }

  lemma AroundComesAndGoes(s: State, e: Event)
    requires Kept(s) && OfAround(s, e)
    ensures ComesAndGoes(s, e, AroundNext(s, e))
  {
    hide AroundNext, AroundsWorld, ComesAndGoes, Kept;
    AroundWorld(s, e);
    OnTheLoginOnly(s);
    AroundGives(s, e, AroundNext(s, e));
  }

  lemma NextComesAndGoes(s: State, e: Event)
    requires Inv(s) && Kept(s) && s.at != Begin
    ensures ComesAndGoes(s, e, Next(s, e))
  {
    hide Inv, Kept, MainNext, TaskNext, CleanupNext, AroundNext, ComesAndGoes;
    if e.OldBlock? {
      OldBlocks(s);
    } else if OfMain(e) {
      MainComesAndGoes(s, e);
    } else if e.CleanUp? || e.Exit? {
      CleanupComesAndGoes(s, e);
    } else if OfTasks(e) {
      TasksComeAndGo(s, e);
    } else {
      AroundComesAndGoes(s, e);
    }
  }

  lemma OldBlocks(s: State)
    ensures ComesAndGoes(s, OldBlock, s.(w := s.w.(block := Stale)))
  {
  }

  /** At first there is nothing but maybe a block that was there before. */
  ghost predicate HoldsNothing(s: State) {
    s.w == World(false, false, false, false, false, false, false, false, s.w.block, {}) && s.waits.creating.None? && s.waits.publishing.None?
  }

  lemma {:induction false} BeginsWithNothing(mode: Mode, es: seq<Event>)
    ensures After(mode, es).at == Begin ==> HoldsNothing(After(mode, es))
  {
    if es != [] {
      BeginsWithNothing(mode, es[..|es| - 1]);
      StaysAtBegin(After(mode, es[..|es| - 1]), es[|es| - 1]);
    }
  }

  lemma StaysAtBegin(s: State, e: Event)
    ensures Next(s, e).at == Begin ==> s.at == Begin && Next(s, e) == if e.OldBlock? then s.(w := s.w.(block := Stale)) else s
  {
  }

  lemma FirstComesAndGoes(s: State, e: Event)
    requires s.at == Begin && HoldsNothing(s)
    ensures ComesAndGoes(s, e, Next(s, e))
  {
    hide JobIsOver;
  }

  /**
   In every run: what the session holds comes about when the step that acquires it succeeds, and goes
   when its cleanup step does what it is for, with the login connection, or by itself; nothing else
   gives or takes any of it.
   */
  lemma EverythingComesAndGoes(mode: Mode, es: seq<Event>, e: Event)
    ensures ComesAndGoes(After(mode, es), e, After(mode, es + [e]))
  {
    hide Inv, Kept, Next, ComesAndGoes;
    assert (es + [e])[..|es|] == es;
    RunsKeep(mode, es);
    WhatWasAcquiredIsKept(mode, es);
    BeginsWithNothing(mode, es);
    if After(mode, es).at == Begin {
      FirstComesAndGoes(After(mode, es), e);
    } else {
      NextComesAndGoes(After(mode, es), e);
    }
  }
}
