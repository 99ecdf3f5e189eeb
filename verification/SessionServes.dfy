/** What a session has while it goes on: what it acquired, its tasks, and a run that serves. */
module SessionServes {
  import opened Prelude
  import F = Finishing
  import opened Session
  import opened SessionInvariants
  import opened SessionResults
  import opened SessionEnds

  // What was acquired stays

  /**
   Until its turn in the cleanup, the SFTP session is open unless the connection is lost,
   and an interactive job's shell until its output is to stop. Nothing on the login
   connection outlives it.
   */
  ghost predicate Kept(s: State) {
    var left := |s.exits.stack|;
    && (left >= 4 ==> s.w.sftp || s.w.lost)
    && (s.mode == Interactive && left >= 7 ==> s.w.shell)
    && (s.w.sftp ==> s.w.login) && (s.w.port ==> s.w.login)
  }

  lemma ProceedsKept(s: State)
    requires Inv(s) && Kept(s) && !s.halt.pending
    ensures Kept(Proceeds(s))
  {
    match s.at
    case ConnectAt => ConnectsKept(s);
    case SftpAt => OpensSftpKept(s);
    case ForwardAt => ForwardsKept(s);
    case PortAt => LearnsPortKept(s);
    case _ =>
  }

  lemma ConnectsKept(s: State)
    requires Inv(s) && Kept(s) && s.at == ConnectAt
    ensures Kept(Connects(s))
  {
  }

  lemma OpensSftpKept(s: State)
    requires Inv(s) && Kept(s) && s.at == SftpAt
    ensures Kept(OpensSftp(s))
  {
  }

  lemma LearnsPortKept(s: State)
    requires Inv(s) && Kept(s) && s.at == PortAt
    ensures Kept(LearnsPort(s))
  {
  }

  lemma ForwardsKept(s: State)
    requires Inv(s) && Kept(s) && s.at == ForwardAt
    ensures Kept(Forwards(s))
  {
  }

  lemma TurnsKept(s: State)
    requires Inv(s) && Kept(s)
    ensures Kept(Turns(s))
  {
  }

  lemma MainKept(s: State, e: Event)
    requires Inv(s) && Kept(s) && OfMain(e) && s.at != Begin
    ensures Kept(MainNext(s, e))
  {
    match e
    case Proceed => if !s.halt.pending { ProceedsKept(s); }
    case ShellOpened(id) =>
    case Fail(code) => MainFailsLeavesTheWorld(s, Failure(code));
    case Turn => TurnsKept(s);
    case Polled(state, hosted) => PollsLeaveTheWorld(s, state, hosted);
    case _ =>
  }

  /** They differ in nothing that was acquired but the tasks. */
  predicate Alike(s: State, t: State) {
    && t.mode == s.mode && t.at == s.at && t.exits == s.exits
    && t.w.login == s.w.login && t.w.lost == s.w.lost && t.w.sftp == s.w.sftp && t.w.shell == s.w.shell
    && t.w.port == s.w.port
  }

  lemma StopAlike(s: State, error: Option<Error>, why: Why)
    ensures Alike(s, Stop(s, error, why)) && Stop(s, error, why).w == s.w
  {
  }

  lemma FailureAlike(s: State, task: Task, error: Error)
    ensures Alike(s, TaskFailure(s, task, error))
    ensures TaskFailure(s, task, error).w.tasks == s.w.tasks - {task}
  {
    hide Stop;
    var blamed := Blame(s.w.lost, error);
    StopAlike(s, Some(blamed), Because(blamed));
  }

  lemma MonitorAlike(s: State, state: JobState)
    ensures Alike(s, MonitorTurn(s, state))
    ensures MonitorTurn(s, state).w.tasks ==
      if Monitor in s.w.tasks && state in {Unknown, Succeeded, JobState.Failed, Gone}
      then s.w.tasks - {Monitor} else s.w.tasks
  {
    hide Stop, TaskFailure;
    var inspected := s.(job := Inspects(s.job, state));
    FailureAlike(inspected, Monitor, StrangeState);
    StopAlike(inspected, None, JobEnded(state));
  }

  lemma TasksAlike(s: State, e: Event)
    ensures Alike(s, TaskNext(s, e))
    ensures forall task :: task in s.w.tasks && !MayEnd(e, task) ==> task in TaskNext(s, e).w.tasks
  {
    hide Stop, TaskFailure, MonitorTurn;
    match e
    case Interrupt => StopAlike(s, None, CtrlC);
    case WatcherSees => StopAlike(s, Some(ConnectionLost), Because(ConnectionLost));
    case TaskFails(task, code) => FailureAlike(s, task, Failure(code));
    case MonitorPolled(state) => MonitorAlike(s, state);
    case _ =>
  }

  lemma AroundKept(s: State, e: Event)
    requires Kept(s)
    ensures Kept(AroundNext(s, e)) && AroundNext(s, e).w.tasks == s.w.tasks && AroundNext(s, e).exits == s.exits
  {
  }

  /** What a cleanup step takes away besides what it is for: what is on the login connection goes with it. */
  predicate Takes(w: World, step: Cleanup, after: World) {
    && after.lost == w.lost
    && (step != CloseLogin ==> after.login == w.login) && (after.login ==> w.login)
    && (step != CloseSftp && step != CloseLogin ==> after.sftp == w.sftp)
    && (step != CloseShell && step != StopTask(Output) ==> after.shell == w.shell)
    && (after.sftp ==> w.sftp) && (after.port ==> w.port)
    && (!after.login && w.login ==> !after.sftp && !after.port)
  }

  lemma UndoTakes(w: World, step: Cleanup)
    ensures Takes(w, step, Undo(w, step))
  {
    match step
    case _ =>
  }

  lemma EffectTakes(w: World, step: Cleanup, outcome: Outcome, finished: bool)
    ensures Takes(w, step, Effect(w, step, outcome, finished))
  {
    hide Undo;
    UndoTakes(w, step);
  }

  lemma PlanTakes(mode: Mode, id: JobId, i: nat)
    ensures var step := PlanAt(mode, id, i);
      && (i >= 4 ==> step != CloseSftp && step != CloseLogin)
      && (mode == Interactive && i >= 7 ==> step != CloseShell && step != StopTask(Output))
  {
  }

  lemma EffectKept(mode: Mode, left: nat, id: JobId, w: World, outcome: Outcome, finished: bool)
    requires left > 0
    requires (left >= 4 ==> w.sftp || w.lost) && (mode == Interactive && left >= 7 ==> w.shell)
    requires (w.sftp ==> w.login) && (w.port ==> w.login)
    ensures var after := Effect(w, PlanAt(mode, id, left - 1), outcome, finished);
      && (left - 1 >= 4 ==> after.sftp || after.lost) && (mode == Interactive && left - 1 >= 7 ==> after.shell)
      && (after.sftp ==> after.login) && (after.port ==> after.login)
  {
    hide Effect, PlanAt;
    EffectTakes(w, PlanAt(mode, id, left - 1), outcome, finished);
    PlanTakes(mode, id, left - 1);
  }

  lemma CleanupKept(s: State, e: Event)
    requires Inv(s) && Kept(s)
    ensures Kept(CleanupNext(s, e))
  {
    if s.at == Unwinding && s.exits.stack != [] && e.CleanUp? {
      CleansUpKeepsStack(s, e.outcome);
      EffectKept(s.mode, |s.exits.stack|, IdOf(s.job.id), s.w, e.outcome, s.job.finished);
    }
  }

  lemma NextKept(s: State, e: Event)
    requires Inv(s) && Kept(s)
    ensures Kept(Next(s, e))
  {
    if e.OldBlock? {
    } else if s.at == Begin {
    } else if OfMain(e) {
      MainKept(s, e);
    } else if e.CleanUp? || e.Exit? {
      CleanupKept(s, e);
    } else if OfTasks(e) {
      TasksAlike(s, e);
    } else {
      AroundKept(s, e);
    }
  }

  lemma {:induction false} WhatWasAcquiredIsKept(mode: Mode, es: seq<Event>)
    ensures Kept(After(mode, es))
  {
    if es != [] {
      hide Inv, Next, Kept;
      WhatWasAcquiredIsKept(mode, es[..|es| - 1]);
      RunsKeep(mode, es[..|es| - 1]);
      NextKept(After(mode, es[..|es| - 1]), es[|es| - 1]);
    } else {
      NothingAtFirst(mode);
    }
  }

  lemma NothingAtFirst(mode: Mode)
    ensures Kept(Init(mode))
  {
  }

  // The background tasks

  /** The task may end by this event, before its turn in the cleanup. */
  predicate MayEnd(e: Event, task: Task) {
    || e == TaskEnds(task)
    || (e.TaskFails? && e.task == task)
    || (e.WatcherSees? && task == Watcher)
    || (e.MonitorPolled? && task == Monitor && e.state in {Unknown, Succeeded, JobState.Failed, Gone})
  }

  predicate Runs(s: State, task: Task) {
    StopTask(task) in s.exits.stack ==> task in s.w.tasks
  }

  lemma MainRuns(s: State, e: Event, task: Task)
    requires OfMain(e) && Runs(s, task)
    ensures Runs(MainNext(s, e), task)
  {
    match e
    case Proceed => ProceedRuns(s, task);
    case Turn => TurnRuns(s, task);
    case Polled(state, hosted) =>
      PollsLeaveTheWorld(s, state, hosted);
      assert Polls(s, state, hosted).exits == s.exits;
    case _ =>
  }

  lemma ProceedRuns(s: State, task: Task)
    requires Runs(s, task)
    ensures Runs(Proceeds(s), task)
  {
    match s.at
    case ConnectAt => assert Runs(Connects(s), task);
    case SftpAt => assert Runs(OpensSftp(s), task);
    case LeaseAt => assert Runs(StartsSubmission(s), task);
    case PortAt => assert Runs(LearnsPort(s), task);
    case ForwardAt => assert Runs(Forwards(s), task);
    case _ =>
  }

  lemma TurnRuns(s: State, task: Task)
    requires Runs(s, task)
    ensures Runs(Turns(s), task)
  {
    if s.at == GatherAt {
      assert Runs(GatherTurn(s), task);
    } else if s.at == SubmitAt && s.waits.submitting.Some? {
      assert Runs(SubmitTurn(s), task);
    } else if s.at == PublishAt && s.waits.publishing.Some? {
      assert Runs(PublishTurn(s), task);
    }
  }

  /** Cleaning up stops a task only at its turn. */
  lemma CleanupRuns(s: State, e: Event, task: Task)
    requires Inv(s) && Runs(s, task)
    ensures Runs(CleanupNext(s, e), task)
  {
    if s.at == Unwinding && s.exits.stack != [] && e.CleanUp? {
      var left := |s.exits.stack|;
      var step := s.exits.stack[left - 1];
      if StopTask(task) in s.exits.stack[..left - 1] {
        OneStopEach(s, task);
        OthersStay(s.w, step, e.outcome, s.job.finished, task);
      }
    }
  }

  lemma OneStopEach(s: State, task: Task)
    requires Inv(s) && s.exits.stack != [] && StopTask(task) in s.exits.stack[..|s.exits.stack| - 1]
    ensures s.exits.stack[|s.exits.stack| - 1] != StopTask(task)
  {
    var left := |s.exits.stack|;
    var i :| 0 <= i < left - 1 && s.exits.stack[i] == StopTask(task);
    PlaceOfStop(s.mode, IdOf(s.job.id), i, task);
    PlaceOfStop(s.mode, IdOf(s.job.id), left - 1, task);
  }

  lemma PlaceOfStop(mode: Mode, id: JobId, i: nat, task: Task)
    requires i < 9 + JobSteps(mode)
    ensures PlanAt(mode, id, i) == StopTask(task) ==> i == PlaceOfTask(mode, task)
  {
  }

  lemma OthersStay(w: World, step: Cleanup, outcome: Outcome, finished: bool, task: Task)
    requires step != StopTask(task) && task in w.tasks
    ensures task in Effect(w, step, outcome, finished).tasks
  {
    hide Undo;
    UndoStopsOne(w, step, task);
  }

  lemma UndoStopsOne(w: World, step: Cleanup, task: Task)
    requires step != StopTask(task) && task in w.tasks
    ensures task in Undo(w, step).tasks
  {
    match step
    case StopTask(other) => assert Undo(w, step).tasks == w.tasks - {other};
    case _ =>
  }

  lemma NextRuns(s: State, e: Event, task: Task)
    requires Inv(s) && Runs(s, task) && !MayEnd(e, task)
    ensures Runs(Next(s, e), task)
  {
    hide Inv, MainNext, TaskNext, CleanupNext, AroundNext;
    if e.OldBlock? {
    } else if s.at == Begin {
    } else if OfMain(e) {
      MainRuns(s, e, task);
    } else if e.CleanUp? || e.Exit? {
      CleanupRuns(s, e, task);
    } else if OfTasks(e) {
      TasksAlike(s, e);
    } else {
      AroundLeavesTasks(s, e);
    }
  }

  lemma LosingLeavesTasks(w: World)
    ensures Lose(w).tasks == w.tasks
  {
  }

  lemma AroundLeavesTasks(s: State, e: Event)
    ensures AroundNext(s, e).w.tasks == s.w.tasks && AroundNext(s, e).exits == s.exits
  {
    hide Create, Submit, Publish, EndSibling, UnderWay, Lose;
    LosingLeavesTasks(s.w);
  }

  /** A background task that is to be stopped in the cleanup runs until then, unless it ends by itself. */
  lemma {:induction false} TasksRunUntilStopped(mode: Mode, es: seq<Event>, task: Task)
    requires forall k :: 0 <= k < |es| ==> !MayEnd(es[k], task)
    ensures Runs(After(mode, es), task)
  {
    if es != [] {
      hide Inv, Next, Runs, MayEnd;
      TasksRunUntilStopped(mode, es[..|es| - 1], task);
      RunsKeep(mode, es[..|es| - 1]);
      NextRuns(After(mode, es[..|es| - 1]), es[|es| - 1], task);
    }
  }

  /** While it serves, they are the watcher, the heartbeats and the monitor, and an interactive job's output. */
  lemma WhatRunsWhileServing(mode: Mode, es: seq<Event>, task: Task)
    requires forall k :: 0 <= k < |es| ==> !MayEnd(es[k], task)
    requires After(mode, es).at == ServeAt && (task == Output ==> mode == Interactive)
    ensures task in After(mode, es).w.tasks
  {
    RunsKeep(mode, es);
    ModeStays(mode, es);
    TasksRunUntilStopped(mode, es, task);
    StopsAreThere(After(mode, es), task);
  }

  lemma StopsAreThere(s: State, task: Task)
    requires Inv(s) && s.at == ServeAt && (task == Output ==> s.mode == Interactive)
    ensures StopTask(task) in s.exits.stack
  {
    var place := PlaceOfTask(s.mode, task);
    assert s.exits.stack[place] == PlanAt(s.mode, IdOf(s.job.id), place) == StopTask(task);
  }

  // Serving

  ghost predicate ServedBy(mode: Mode, es: seq<Event>, k: nat)
    requires k <= |es|
  {
    After(mode, es[..k]).at == ServeAt
  }

  ghost predicate Served(mode: Mode, es: seq<Event>) {
    exists k :: 0 <= k <= |es| && ServedBy(mode, es, k)
  }

  lemma ServedNext(mode: Mode, es: seq<Event>)
    requires es != []
    ensures Served(mode, es) <==> Served(mode, es[..|es| - 1]) || After(mode, es).at == ServeAt
  {
    hide After;
    var before := es[..|es| - 1];
    forall k | 0 <= k <= |before|
      ensures ServedBy(mode, es, k) == ServedBy(mode, before, k)
    {
      assert es[..k] == before[..k];
    }
    if Served(mode, before) {
      var k :| 0 <= k <= |before| && ServedBy(mode, before, k);
      assert ServedBy(mode, es, k);
    }
    assert es[..|es|] == es;
    assert ServedBy(mode, es, |es|) == (After(mode, es).at == ServeAt);
  }

  lemma ServingIsServed(mode: Mode, es: seq<Event>)
    requires After(mode, es).at == ServeAt
    ensures Served(mode, es)
  {
    assert es[..|es|] == es;
    assert ServedBy(mode, es, |es|);
  }

  /** `ready`, which tells a tunnel that stopped from one that never started, says that it has served. */
  lemma {:induction false} ReadyMeansItServed(mode: Mode, es: seq<Event>)
    ensures After(mode, es).ready <==> Served(mode, es)
  {
    if es == [] {
      assert !ServedBy(mode, es, 0);
    } else {
      hide Served, Next;
      var before := es[..|es| - 1];
      ReadyMeansItServed(mode, before);
      ServedNext(mode, es);
      if After(mode, before).at == ServeAt {
        ServingIsServed(mode, before);
      }
      ReadyNext(After(mode, before), es[|es| - 1]);
    }
  }

  lemma MainReady(s: State, e: Event)
    requires OfMain(e) && (s.at == ServeAt ==> s.ready)
    ensures MainNext(s, e).ready <==> s.ready || MainNext(s, e).at == ServeAt
  {
    hide Push, Report, StartTask;
  }

  lemma ReadyNext(s: State, e: Event)
    requires s.at == ServeAt ==> s.ready
    ensures Next(s, e).ready <==> s.ready || Next(s, e).at == ServeAt
  {
    hide MainNext, TaskNext, AroundNext, CleanupNext;
    if e.OldBlock? || s.at == Begin {
    } else if OfMain(e) {
      MainReady(s, e);
    } else if e.CleanUp? || e.Exit? {
      CleanupReady(s, e);
    } else if OfTasks(e) {
      TaskReady(s, e);
    } else {
      AroundStaysAt(s, e);
      AroundReady(s, e);
    }
  }

  lemma CleanupReady(s: State, e: Event)
    ensures CleanupNext(s, e).ready == s.ready && (CleanupNext(s, e).at == ServeAt ==> s.at == ServeAt)
  {
  }

  lemma TaskReady(s: State, e: Event)
    ensures TaskNext(s, e).ready == s.ready && TaskNext(s, e).at == s.at
  {
  }

  lemma AroundReady(s: State, e: Event)
    ensures AroundNext(s, e).ready == s.ready
  {
  }

  // A run from the beginning to the end

  /** A job that runs at once, however it is submitted. */
  function ToPort(mode: Mode): seq<Event> {
    if mode == Batch then [Submission(F.Completes("7")), Turn, Polled(Running, true)]
    else [ShellOpened("7"), Proceed, Polled(Running, true)]
  }

  const TO_PUBLICATION: seq<Event> := [Proceed, Proceed, Proceed]

  const TO_SERVING: seq<Event> := [BlockAppears, Publication(F.Completes(())), Turn]

  /** Everything succeeds, until the tunnel serves. */
  function ServingRun(mode: Mode): seq<Event> {
    TO_GATHER + (TO_SUBMISSION + (ToPort(mode) + (TO_PUBLICATION + TO_SERVING)))
  }

  lemma RunShell(s: State)
    requires Unharmed(s, SubmitAt) && s.mode == Interactive
    ensures Unharmed(From(s, ToPort(Interactive)), PortAt)
  {
    From3(s, ShellOpened("7"), Proceed, Polled(Running, true));
    ShellRuns(s);
    FirstPoll(Next(Next(s, ShellOpened("7")), Proceed));
  }

  lemma ShellRuns(s: State)
    requires Unharmed(s, SubmitAt) && s.mode == Interactive
    ensures Unharmed(Next(Next(s, ShellOpened("7")), Proceed), JobAt)
  {
  }

  lemma StartsServing(s: State)
    requires Unharmed(s, PublishAt) && s.waits.publishing == Some(F.Start())
    ensures var t := From(s, TO_SERVING); Unharmed(t, ServeAt) && t.w.block == Own
  {
    hide Next, Unharmed;
    From3(s, BlockAppears, Publication(F.Completes(())), Turn);
    BlockComes(s);
    BlockIsNoWait(s);
    Published(Next(s, BlockAppears));
  }

  lemma BlockIsNoWait(s: State)
    requires Unharmed(s, PublishAt)
    ensures Next(s, BlockAppears).waits == s.waits
  {
  }

  lemma Published(s: State)
    requires Unharmed(s, PublishAt) && s.waits.publishing == Some(F.Start())
    ensures var t := Next(Next(s, Publication(F.Completes(()))), Turn); Unharmed(t, ServeAt) && t.w.block == s.w.block
  {
    var f: F.Finish<()> := F.Finish(F.Gave(()), F.Shielded, false, false, []);
    assert Next(s, Publication(F.Completes(()))) == s.(waits := s.waits.(publishing := Some(f)));
  }

  /** A run in which nothing goes wrong comes to serving, with all that takes, batch or interactive. */
  lemma AnUndisturbedTunnelServes(mode: Mode)
    ensures var s := After(mode, ServingRun(mode));
      && s.at == ServeAt && s.ready && s.halt.phase == Serving && s.halt.why.None?
      && s.w.lock && s.w.login && s.w.sftp && s.w.port && s.w.block == Own
      && (s.w.shell <==> mode == Interactive)
      && s.w.tasks == {Watcher, Heartbeats, Monitor} + if mode == Interactive then {Output} else {}
  {
    hide Inv, Next, Kept, Unharmed;
    var s := After(mode, ServingRun(mode));
    ComesToServe(mode);
    RunsKeep(mode, ServingRun(mode));
    ModeStays(mode, ServingRun(mode));
    WhatWasAcquiredIsKept(mode, ServingRun(mode));
    ServesWith(s);
    ReadyMeansItServed(mode, ServingRun(mode));
    ServingIsServed(mode, ServingRun(mode));
    forall task | task == Output ==> mode == Interactive
      ensures task in s.w.tasks
    {
      WhatRunsWhileServing(mode, ServingRun(mode), task);
    }
    ThoseAreAll(s.w.tasks);
  }

  lemma ThoseAreAll(tasks: set<Task>)
    ensures {Watcher, Heartbeats, Monitor, Output} <= tasks ==> tasks == {Watcher, Heartbeats, Monitor, Output}
    ensures {Watcher, Heartbeats, Monitor} <= tasks && Output !in tasks ==> tasks == {Watcher, Heartbeats, Monitor}
  {
    var four := {Watcher, Heartbeats, Monitor, Output};
    forall task | task in tasks
      ensures task in four
    {
      match task
      case Watcher =>
      case Output =>
      case Heartbeats =>
      case Monitor =>
    }
    assert tasks <= four;
    if Output !in tasks {
      assert tasks <= four - {Output};
    }
  }

  lemma ServesWith(s: State)
    requires Inv(s) && Kept(s) && Unharmed(s, ServeAt)
    ensures s.at == ServeAt && s.halt.why.None?
    ensures s.halt.phase == Serving && s.w.lock && s.w.login && s.w.sftp && s.w.port
    ensures (s.mode == Interactive ==> s.w.shell) && (s.mode == Batch ==> !s.w.shell && Output !in s.w.tasks)
  {
  }

  lemma ComesToServe(mode: Mode)
    ensures var s := After(mode, ServingRun(mode)); Unharmed(s, ServeAt) && s.w.block == Own
  {
    hide Next, Unharmed;
    ToGather(mode);
    ModeStays(mode, TO_GATHER);
    var s := After(mode, TO_GATHER);
    StartsUnharmed(s);
    ToSubmission(s);
    var t := From(s, TO_SUBMISSION);
    if mode == Batch { RunJob(t); } else { RunShell(t); }
    var u := From(t, ToPort(mode));
    Forward(u);
    StartsServing(From(u, TO_PUBLICATION));
    FromConcat(u, TO_PUBLICATION, TO_SERVING);
    FromConcat(t, ToPort(mode), TO_PUBLICATION + TO_SERVING);
    FromConcat(s, TO_SUBMISSION, ToPort(mode) + (TO_PUBLICATION + TO_SERVING));
    AfterFrom(mode, TO_GATHER, TO_SUBMISSION + (ToPort(mode) + (TO_PUBLICATION + TO_SERVING)));
  }

  lemma StartsUnharmed(s: State)
    requires s.at == GatherAt && s.halt.why.None? && !s.halt.pending && !s.w.lost
    ensures Unharmed(s, GatherAt)
  {
  }
}
