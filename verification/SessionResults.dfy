/** What a run of the session ends with, and what holds all along. */
module SessionResults {
  import opened Prelude
  import F = Finishing
  import opened Session
  import opened SessionInvariants

  // Cleanup

  /**
   However each cleanup step goes, every one that was registered runs, once, and in
   reverse order of registration.
   */
  lemma CleanupRunsInReverse(mode: Mode, es: seq<Event>)
    ensures var s := After(mode, es);
      s.at == Ended ==>
        && |s.exits.ran| == |s.exits.registered|
        && forall i :: 0 <= i < |s.exits.ran| ==>
             s.exits.ran[i].step == s.exits.registered[|s.exits.registered| - 1 - i]
  {
    RunsKeep(mode, es);
  }

  /**
   Whatever a cleanup step undoes has been undone once `run` ends, unless the step
   went wrong, or `_finish` gave up on what it undoes, or, for the control
   directory, the main task left the `gather` before the directory was made.
   */
  lemma NothingIsLeft(mode: Mode, es: seq<Event>, step: Cleanup)
    ensures var s := After(mode, es);
      s.at == Ended && Holds(s.w, step) ==> step in Spoiled(s.exits.ran) || Excused(s.waits, step)
  {
    RunsKeep(mode, es);
    var s := After(mode, es);
    ModeStays(mode, es);
    if s.at == Ended && Holds(s.w, step) {
      PlaceInThePlan(mode, step);
    }
  }

  /** Where in the plan a step comes that undoes something. */
  function PlaceOf(mode: Mode, step: Cleanup): nat {
    var j := JobSteps(mode);
    match step
    case ReleaseLock => 0
    case CloseLogin => 1
    case StopTask(task) => (
      match task
      case Watcher => 2
      case Output => 6
      case Heartbeats => 5 + j
      case Monitor => 8 + j)
    case CloseSftp => 3
    case RemoveControl => 4
    case CloseShell => 5
    case CancelJob(_) => 4 + j
    case ClosePort => 6 + j
    case Withdraw => 7 + j
  }

  lemma PlaceInThePlan(mode: Mode, step: Cleanup)
    requires !step.CancelJob? && (mode == Batch ==> step != CloseShell && step != StopTask(Output))
    ensures PlaceOf(mode, step) < 9 + JobSteps(mode) && PlanAt(mode, "", PlaceOf(mode, step)) == step
  {
  }

  lemma {:induction false} ModeStays(mode: Mode, es: seq<Event>)
    ensures After(mode, es).mode == mode
  {
    if es != [] {
      ModeStays(mode, es[..|es| - 1]);
      NextMode(After(mode, es[..|es| - 1]), es[|es| - 1]);
    }
  }

  lemma NextMode(s: State, e: Event)
    ensures Next(s, e).mode == s.mode
  {
    if OfMain(e) {
      MainNextMode(s, e);
    } else {
      OtherNextMode(s, e);
    }
  }

  lemma MainNextMode(s: State, e: Event)
    ensures MainNext(s, e).mode == s.mode
  {
  }

  lemma OtherNextMode(s: State, e: Event)
    ensures OtherNext(s, e).mode == s.mode
  {
  }

  /**
   The main task leaves the `gather` with the control directory still to be made
   exactly if, at that turn, the creation is under way and another child has failed
   or was cancelled, or the creation was given up on.
   */
  lemma TheGatherIsLeftLoose(mode: Mode, es: seq<Event>)
    ensures var s := After(mode, es);
      s.at == GatherAt ==>
        (Next(s, Turn).at != GatherAt && Next(s, Turn).waits.loose
         <==> UnderWay(s.waits.creating)
              && (s.waits.siblings.0 == Unmade || s.waits.siblings.1 == Unmade || GaveUp(s.waits.creating)))
  {
    RunsKeep(mode, es);
  }

  /**
   A Ctrl+C in the `gather`, with the creation under way and no child failed so far,
   lets the main task leave before the directory is made exactly if another child
   was not done yet. `_finish` holds the stop up only if it is the last.
   */
  lemma StopInTheGather(mode: Mode, es: seq<Event>)
    ensures var s := After(mode, es);
      s.at == GatherAt && s.halt.why.None? && UnderWay(s.waits.creating) && !GatherOver(s.waits) ==>
        (Next(Next(s, Interrupt), Turn).at == Unwinding <==> s.waits.siblings != (Made, Made))
  {
    RunsKeep(mode, es);
    var s := After(mode, es);
    if s.at == GatherAt && s.halt.why.None? && UnderWay(s.waits.creating) && !GatherOver(s.waits) {
      CancelledGather(s);
    }
  }

  lemma CancelledGather(s: State)
    requires s.at == GatherAt && s.halt.why.None? && UnderWay(s.waits.creating) && !GatherOver(s.waits)
    requires F.Sound(s.waits.creating.value)
    ensures Next(Next(s, Interrupt), Turn).at == Unwinding <==> s.waits.siblings != (Made, Made)
  {
    assert Next(s, Interrupt).waits == CancelChildren(s.waits);
  }

  // Runs, event by event

  function From(s: State, es: seq<Event>): State
    decreases |es|
  {
    if es == [] then s else From(Next(s, es[0]), es[1..])
  }

  lemma {:induction false} AfterFrom(mode: Mode, es: seq<Event>, more: seq<Event>)
    ensures After(mode, es + more) == From(After(mode, es), more)
    decreases |more|
  {
    if more == [] {
      assert es + more == es;
    } else {
      var next := es + [more[0]];
      assert next[..|next| - 1] == es;
      assert es + more == next + more[1..];
      AfterFrom(mode, next, more[1..]);
    }
  }

  lemma FromCons(s: State, e: Event, es: seq<Event>)
    ensures From(s, [e] + es) == From(Next(s, e), es)
  {
    assert ([e] + es)[1..] == es;
  }

  lemma {:induction false} FromConcat(s: State, es: seq<Event>, more: seq<Event>)
    ensures From(s, es + more) == From(From(s, es), more)
    decreases |es|
  {
    if es == [] {
      assert es + more == more;
    } else {
      assert (es + more)[1..] == es[1..] + more;
      FromConcat(Next(s, es[0]), es[1..], more);
    }
  }

  lemma FromOne(s: State, a: Event)
    ensures From(s, [a]) == Next(s, a)
  {
    FromCons(s, a, []);
    assert [a] + [] == [a];
  }

  lemma From3(s: State, a: Event, b: Event, c: Event)
    ensures From(s, [a, b, c]) == Next(Next(Next(s, a), b), c)
  {
    FromCons(s, a, [b, c]);
    FromCons(Next(s, a), b, [c]);
    FromCons(Next(Next(s, a), b), c, []);
    assert [a] + [b, c] == [a, b, c] && [b] + [c] == [b, c] && [c] + [] == [c];
  }

  function CleanUps(outcomes: seq<Outcome>): seq<Event> {
    if outcomes == [] then [] else [CleanUp(outcomes[0])] + CleanUps(outcomes[1..])
  }

  predicate AllFine(outcomes: seq<Outcome>) {
    forall i :: 0 <= i < |outcomes| ==> outcomes[i] == Fine
  }

  lemma OneCleanUp(s: State, outcome: Outcome)
    requires s.at == Unwinding && s.exits.stack != [] && !s.halt.pending
    ensures var t := Next(s, CleanUp(outcome));
      && t.at == Unwinding && t.exits.stack == s.exits.stack[..|s.exits.stack| - 1]
      && t.halt == s.halt && t.waits == s.waits && t.w.stray == s.w.stray
      && (outcome == Fine ==> Spoiled(t.exits.ran) == Spoiled(s.exits.ran))
      && (s.exits.stack[|s.exits.stack| - 1] != RemoveControl ==> t.w.control == s.w.control)
  {
    assert Next(s, CleanUp(outcome)) == CleansUp(s, outcome);
    CleansUpOne(s, outcome);
  }

  lemma CleansUpOne(s: State, outcome: Outcome)
    requires s.at == Unwinding && s.exits.stack != [] && !s.halt.pending
    ensures var t := CleansUp(s, outcome);
      && t.at == Unwinding && t.exits.stack == s.exits.stack[..|s.exits.stack| - 1]
      && t.halt == s.halt && t.waits == s.waits && t.w.stray == s.w.stray
      && (outcome == Fine ==> Spoiled(t.exits.ran) == Spoiled(s.exits.ran))
      && (s.exits.stack[|s.exits.stack| - 1] != RemoveControl ==> t.w.control == s.w.control)
  {
    var step := s.exits.stack[|s.exits.stack| - 1];
    SpoiledNext(s.exits.ran, Ran(step, outcome));
    EffectLeaves(s.w, step, outcome, s.job.finished);
  }

  /** The rest of the cleanup, however each step goes. */
  lemma {:induction false} RunCleanUps(s: State, outcomes: seq<Outcome>)
    requires s.at == Unwinding && |outcomes| == |s.exits.stack| && !s.halt.pending
    ensures var t := From(s, CleanUps(outcomes));
      && t.at == Unwinding && t.exits.stack == [] && t.halt == s.halt && t.waits == s.waits && t.w.stray == s.w.stray
      && (AllFine(outcomes) ==> Spoiled(t.exits.ran) == Spoiled(s.exits.ran))
      && (RemoveControl !in s.exits.stack ==> t.w.control == s.w.control)
    decreases |outcomes|
  {
    if outcomes != [] {
      OneCleanUp(s, outcomes[0]);
      FromCons(s, CleanUp(outcomes[0]), CleanUps(outcomes[1..]));
      assert AllFine(outcomes) ==> outcomes[0] == Fine && AllFine(outcomes[1..]);
      RunCleanUps(Next(s, CleanUp(outcomes[0])), outcomes[1..]);
    }
  }

  /** Up to the `gather`. */
  const TO_GATHER: seq<Event> := [TakeLock(true), Proceed, Proceed, Proceed]

  const GATHER_STACK: seq<Cleanup> := [ReleaseLock, CloseLogin, StopTask(Watcher), CloseSftp, RemoveControl]

  lemma ToGather(mode: Mode)
    ensures var s := After(mode, TO_GATHER);
      && s.at == GatherAt && s.halt.why.None? && !s.halt.pending && !s.w.lost
      && s.waits == Waits((Making, Making), Some(F.Start()), None, None, false)
      && s.exits == Exits(GATHER_STACK, GATHER_STACK, [])
      && s.halt.stops == [] && s.halt.error.None? && s.halt.passing.None?
  {
    var s1 := Next(Init(mode), TakeLock(true));
    var s2 := Next(s1, Proceed);
    var s3 := Next(s2, Proceed);
    var s4 := Next(s3, Proceed);
    assert s4.exits.stack == GATHER_STACK && s4.exits.registered == GATHER_STACK;
    assert TO_GATHER[..3] == [TakeLock(true), Proceed, Proceed];
    assert TO_GATHER[..3][..2] == [TakeLock(true), Proceed];
    assert TO_GATHER[..3][..2][..1] == [TakeLock(true)];
    assert After(mode, [TakeLock(true)]) == s1;
    assert After(mode, TO_GATHER[..3][..2]) == s2;
    assert After(mode, TO_GATHER[..3]) == s3;
  }

  /** The cleanup of a stop in the `gather`, the directory being made after it was removed. */
  function LateControl(): seq<Event> {
    [CleanUp(Fine)] + ([ControlAppears] + Rest())
  }

  function Rest(): seq<Event> {
    CleanUps([Fine, Fine, Fine, Fine]) + [Exit]
  }

  lemma RestIsFine(s: State)
    requires s.at == Unwinding && |s.exits.stack| == 4 && RemoveControl !in s.exits.stack
    requires !s.halt.pending && s.halt.passing.None?
    ensures var t := From(s, Rest());
      && t.at == Ended && t.w.control == s.w.control && Spoiled(t.exits.ran) == Spoiled(s.exits.ran)
      && t.waits == s.waits && t.halt.stops == s.halt.stops && t.halt.raised == s.halt.error
  {
    var rest := CleanUps([Fine, Fine, Fine, Fine]);
    RunCleanUps(s, [Fine, Fine, Fine, Fine]);
    FromConcat(s, rest, [Exit]);
    FromOne(From(s, rest), Exit);
  }

  lemma RemovedTooEarly(s: State)
    requires s.at == Unwinding && s.exits == Exits(GATHER_STACK, GATHER_STACK, [])
    requires UnderWay(s.waits.creating) && !s.halt.pending && s.halt.passing.None?
    ensures var t := Next(Next(s, CleanUp(Fine)), ControlAppears);
      && t.at == Unwinding && |t.exits.stack| == 4 && RemoveControl !in t.exits.stack && t.w.control
      && Spoiled(t.exits.ran) == {} && t.waits == s.waits && t.halt == s.halt
  {
    SpoiledNext([], Ran(RemoveControl, Fine));
    assert GATHER_STACK[..4] == [ReleaseLock, CloseLogin, StopTask(Watcher), CloseSftp];
    assert [] + [Ran(RemoveControl, Fine)] == [Ran(RemoveControl, Fine)];
  }

  lemma LateControlIsLeft(s: State)
    requires s.at == Unwinding && s.exits == Exits(GATHER_STACK, GATHER_STACK, [])
    requires UnderWay(s.waits.creating) && !s.halt.pending && s.halt.passing.None?
    ensures var t := From(s, LateControl());
      && t.at == Ended && t.w.control && Spoiled(t.exits.ran) == {} && t.waits == s.waits
      && t.halt.stops == s.halt.stops && t.halt.raised == s.halt.error
  {
    FromTwo(s, CleanUp(Fine), ControlAppears, Rest());
    RemovedTooEarly(s);
    RestIsFine(Next(Next(s, CleanUp(Fine)), ControlAppears));
  }

  lemma FromTwo(s: State, a: Event, b: Event, es: seq<Event>)
    ensures From(s, [a] + ([b] + es)) == From(Next(Next(s, a), b), es)
  {
    FromCons(s, a, [b] + es);
    FromCons(Next(s, a), b, es);
  }

  /** A run that leaves the `gather` after `e`, and cleans up before the directory is made. */
  function LateRun(e: Event): seq<Event> {
    TO_GATHER + ([e] + ([Turn] + LateControl()))
  }

  lemma LateRunEnds(mode: Mode, e: Event)
    requires var u := Next(Next(After(mode, TO_GATHER), e), Turn);
      && u.at == Unwinding && u.exits == Exits(GATHER_STACK, GATHER_STACK, []) && UnderWay(u.waits.creating)
      && !u.halt.pending && u.halt.passing.None?
    ensures var u, t := Next(Next(After(mode, TO_GATHER), e), Turn), After(mode, LateRun(e));
      && t.at == Ended && t.w.control && Spoiled(t.exits.ran) == {} && t.waits == u.waits
      && t.halt.stops == u.halt.stops && t.halt.raised == u.halt.error
  {
    var s := After(mode, TO_GATHER);
    var t := Next(s, e);
    LateControlIsLeft(Next(t, Turn));
    FromTwo(s, e, Turn, LateControl());
    AfterFrom(mode, TO_GATHER, [e] + ([Turn] + LateControl()));
  }

  /**
   So a Ctrl+C can leave the control directory behind, though every cleanup step did
   what it is for and nothing was given up on: here, while another directory is
   still being made.
   */
  lemma CtrlCMayLeaveTheControlDirectory(mode: Mode)
    ensures exists es :: var s := After(mode, es);
      && s.at == Ended && s.w.control && Spoiled(s.exits.ran) == {}
      && !GaveUp(s.waits.creating) && s.halt.stops == [(None, CtrlC)] && s.halt.raised.None?
  {
    ToGather(mode);
    CtrlCInTheGather(After(mode, TO_GATHER));
    LateRunEnds(mode, Interrupt);
  }

  lemma CtrlCInTheGather(s: State)
    requires s.at == GatherAt && s.halt.why.None? && s.halt.stops == [] && s.halt.error.None? && s.halt.passing.None?
    requires s.waits == Waits((Making, Making), Some(F.Start()), None, None, false)
    ensures var u := Next(Next(s, Interrupt), Turn);
      && u.at == Unwinding && u.exits == s.exits && UnderWay(u.waits.creating) && !GaveUp(u.waits.creating)
      && u.halt.stops == [(None, CtrlC)] && u.halt.error.None? && !u.halt.pending && u.halt.passing.None?
  {
  }

  /** And so can a failure to make another directory. */
  lemma AFailureMayLeaveTheControlDirectory(mode: Mode)
    ensures exists es :: var s := After(mode, es);
      && s.at == Ended && s.w.control && Spoiled(s.exits.ran) == {}
      && !GaveUp(s.waits.creating) && s.halt.raised == Some(Failure(1))
  {
    ToGather(mode);
    AFailureInTheGather(After(mode, TO_GATHER));
    LateRunEnds(mode, SiblingEnds(true, false));
  }

  lemma AFailureInTheGather(s: State)
    requires s.at == GatherAt && s.halt.why.None? && !s.halt.pending && !s.w.lost && s.halt.passing.None?
    requires s.waits == Waits((Making, Making), Some(F.Start()), None, None, false)
    ensures var u := Next(Next(s, SiblingEnds(true, false)), Turn);
      && u.at == Unwinding && u.exits == s.exits && UnderWay(u.waits.creating) && !GaveUp(u.waits.creating)
      && u.halt.error == Some(Failure(1)) && !u.halt.pending && u.halt.passing.None?
  {
  }

  // What a user of the alias relies on

  /**
   While every cleanup step did what it is for, and the publication was not given up
   on, this tunnel's Host block on disk means that the alias is locked, and that its
   port is open exactly as long as the login connection is.
   */
  lemma ABlockMeansAPort(mode: Mode, es: seq<Event>)
    ensures var s := After(mode, es);
      s.w.block == Own && Spoiled(s.exits.ran) == {} && !GaveUp(s.waits.publishing) ==>
        && s.w.lock
        && (s.w.port <==> s.w.login)
        && (s.w.login <==> !s.w.lost)
  {
    RunsKeep(mode, es);
    ModeStays(mode, es);
    var s := After(mode, es);
    if s.w.block == Own && Spoiled(s.exits.ran) == {} && !GaveUp(s.waits.publishing) {
      var left := |s.exits.stack|;
      StillToCome(mode, left, s.waits, s.w, Withdraw);
      HeldSoFar(mode, |s.exits.registered|, left, s.w);
    }
  }

  /** The event puts this tunnel's block in a stale one's place, or takes it away. */
  predicate Clears(s: State, e: Event) {
    && s.at != Begin
    && (|| (e.BlockAppears? && UnderWay(s.waits.publishing))
        || e.BlockGoes?
        || (e.CleanUp? && s.at == Unwinding && s.exits.stack != [] && e.outcome == Fine
            && s.exits.stack[|s.exits.stack| - 1] == Withdraw))
  }

  lemma StaleNext(s: State, e: Event)
    ensures Next(s, e).w.block == Stale <==> e.OldBlock? || (s.w.block == Stale && !Clears(s, e))
  {
    if e.OldBlock? || s.at == Begin {
    } else if OfMain(e) {
      MainLeavesBlocks(s, e);
    } else {
      OthersOnBlocks(s, e);
    }
  }

  predicate PassesTheSame(s: State, t: State) {
    t.halt.passing == s.halt.passing
  }

  lemma MainFailsLeavesTheWorld(s: State, error: Error)
    ensures MainFails(s, error).w == s.w && PassesTheSame(s, MainFails(s, error))
  {
  }

  lemma StopLeavesTheWorld(s: State, error: Option<Error>, why: Why)
    ensures Stop(s, error, why).w == s.w && PassesTheSame(s, Stop(s, error, why))
  {
  }

  lemma MainLeavesBlocks(s: State, e: Event)
    requires OfMain(e)
    ensures MainNext(s, e).w.block == s.w.block
    ensures e.PromptInterrupted? || PassesTheSame(s, MainNext(s, e))
  {
    match e
    case Proceed => ProceedingLeavesBlocks(s);
    case Fail(code) => MainFailsLeavesTheWorld(s, Failure(code));
    case Turn => TurnsLeaveBlocks(s);
    case Polled(state, hosted) => PollsLeaveTheWorld(s, state, hosted);
    case _ =>
  }

  lemma ConnectingLeavesBlocks(s: State)
    ensures Connects(s).w.block == s.w.block && LearnsPort(s).w.block == s.w.block
    ensures PassesTheSame(s, Connects(s)) && PassesTheSame(s, LearnsPort(s))
  {
  }

  lemma OpeningLeavesBlocks(s: State)
    ensures OpensSftp(s).w.block == s.w.block && StartsSubmission(s).w == s.w
    ensures PassesTheSame(s, OpensSftp(s)) && PassesTheSame(s, StartsSubmission(s))
  {
  }

  lemma ForwardingLeavesBlocks(s: State)
    ensures Forwards(s).w.block == s.w.block && PassesTheSame(s, Forwards(s))
  {
  }

  lemma ProceedingLeavesBlocks(s: State)
    ensures Proceeds(s).w.block == s.w.block && PassesTheSame(s, Proceeds(s))
  {
    ConnectingLeavesBlocks(s);
    OpeningLeavesBlocks(s);
    ForwardingLeavesBlocks(s);
  }

  lemma PollsLeaveTheWorld(s: State, state: JobState, hosted: bool)
    ensures Polls(s, state, hosted).w == s.w && PassesTheSame(s, Polls(s, state, hosted))
  {
    var inspected := s.(job := Inspects(s.job, state));
    MainFailsLeavesTheWorld(inspected, StrangeState);
    MainFailsLeavesTheWorld(inspected, JobOver(state));
  }

  lemma TurnsLeaveBlocks(s: State)
    ensures Turns(s).w.block == s.w.block && PassesTheSame(s, Turns(s))
  {
    if s.at == GatherAt {
      assert GatherTurn(s).w == s.w && PassesTheSame(s, GatherTurn(s));
    } else if s.at == SubmitAt && s.waits.submitting.Some? {
      assert SubmitTurn(s).w == s.w && PassesTheSame(s, SubmitTurn(s));
    } else if s.at == PublishAt && s.waits.publishing.Some? {
      assert PublishTurn(s).w.block == s.w.block && PassesTheSame(s, PublishTurn(s));
    }
  }

  lemma TaskFailureLeavesBlocks(s: State, task: Task, error: Error)
    ensures TaskFailure(s, task, error).w.block == s.w.block && PassesTheSame(s, TaskFailure(s, task, error))
  {
    var blamed := Blame(s.w.lost, error);
    StopLeavesTheWorld(s, Some(blamed), Because(blamed));
  }

  lemma MonitorLeavesBlocks(s: State, state: JobState)
    ensures MonitorTurn(s, state).w.block == s.w.block && PassesTheSame(s, MonitorTurn(s, state))
  {
    var inspected := s.(job := Inspects(s.job, state));
    TaskFailureLeavesBlocks(inspected, Monitor, StrangeState);
    StopLeavesTheWorld(inspected, None, JobEnded(state));
  }

  lemma TasksLeaveBlocks(s: State, e: Event)
    ensures TaskNext(s, e).w.block == s.w.block && PassesTheSame(s, TaskNext(s, e))
  {
    match e
    case Interrupt => StopLeavesTheWorld(s, None, CtrlC);
    case WatcherSees => StopLeavesTheWorld(s, Some(ConnectionLost), Because(ConnectionLost));
    case TaskFails(task, code) => TaskFailureLeavesBlocks(s, task, Failure(code));
    case MonitorPolled(state) => MonitorLeavesBlocks(s, state);
    case _ =>
  }

  lemma CleanupOnBlocks(s: State, e: Event)
    requires s.at != Begin && (e.CleanUp? || e.Exit?)
    ensures CleanupNext(s, e).w.block == Stale <==> s.w.block == Stale && !Clears(s, e)
  {
    if e.CleanUp? && s.exits.stack != [] {
      EffectOnBlocks(s.w, s.exits.stack[|s.exits.stack| - 1], e.outcome, s.job.finished);
    }
  }

  lemma EffectOnBlocks(w: World, step: Cleanup, outcome: Outcome, finished: bool)
    ensures Effect(w, step, outcome, finished).block == if step == Withdraw && outcome == Fine then NoBlock else w.block
  {
    match step
    case _ =>
  }

  lemma AroundLeavesBlocks(s: State, e: Event)
    requires !e.BlockAppears? && !e.BlockGoes?
    ensures AroundNext(s, e).w.block == s.w.block
  {
    if e.LoseLogin? {
      assert Lose(s.w).block == s.w.block;
    }
  }

  lemma AroundOnBlocks(s: State, e: Event)
    requires s.at != Begin && !e.CleanUp?
    ensures AroundNext(s, e).w.block == Stale <==> s.w.block == Stale && !Clears(s, e)
  {
    if !e.BlockAppears? && !e.BlockGoes? {
      AroundLeavesBlocks(s, e);
    }
  }

  lemma OthersOnBlocks(s: State, e: Event)
    requires s.at != Begin && !OfMain(e) && !e.OldBlock?
    ensures OtherNext(s, e).w.block == Stale <==> s.w.block == Stale && !Clears(s, e)
  {
    if e.CleanUp? || e.Exit? {
      CleanupOnBlocks(s, e);
    } else if OfTasks(e) {
      TasksLeaveBlocks(s, e);
    } else {
      AroundOnBlocks(s, e);
    }
  }

  ghost predicate ClearsAt(mode: Mode, es: seq<Event>, k: nat)
    requires k < |es|
  {
    Clears(After(mode, es[..k]), es[k])
  }

  /** An earlier tunnel's block came at `j`, and nothing has cleared it since. */
  ghost predicate StaleSince(mode: Mode, es: seq<Event>, j: nat) {
    && j < |es| && es[j].OldBlock?
    && forall k :: j < k < |es| ==> !ClearsAt(mode, es, k)
  }

  ghost predicate HasStale(mode: Mode, es: seq<Event>) {
    exists j :: StaleSince(mode, es, j)
  }

  lemma StaleSinceNext(mode: Mode, es: seq<Event>, j: nat)
    requires j < |es| - 1
    ensures StaleSince(mode, es, j) <==>
              StaleSince(mode, es[..|es| - 1], j) && !Clears(After(mode, es[..|es| - 1]), es[|es| - 1])
  {
    hide Clears, After;
    var before := es[..|es| - 1];
    forall k | 0 <= k < |before|
      ensures ClearsAt(mode, es, k) == ClearsAt(mode, before, k)
    {
      assert es[..k] == before[..k];
    }
    assert ClearsAt(mode, es, |before|) == Clears(After(mode, before), es[|before|]);
  }

  lemma HasStaleNext(mode: Mode, es: seq<Event>)
    requires es != []
    ensures var before, e := es[..|es| - 1], es[|es| - 1];
      HasStale(mode, es) <==> e.OldBlock? || (HasStale(mode, before) && !Clears(After(mode, before), e))
  {
    var before, last := es[..|es| - 1], |es| - 1;
    if es[last].OldBlock? {
      assert StaleSince(mode, es, last);
    } else if HasStale(mode, es) {
      var j :| StaleSince(mode, es, j);
      StaleSinceNext(mode, es, j);
    } else if HasStale(mode, before) {
      var j :| StaleSince(mode, before, j);
      StaleSinceNext(mode, es, j);
    }
  }

  /**
   A stale block is on disk exactly if an earlier tunnel of the alias left one, and since
   then this tunnel has neither written its own nor withdrawn it, and nobody removed it.
   */
  lemma {:induction false} AStaleBlockStays(mode: Mode, es: seq<Event>)
    ensures After(mode, es).w.block == Stale <==> HasStale(mode, es)
  {
    if es != [] {
      var before := es[..|es| - 1];
      AStaleBlockStays(mode, before);
      HasStaleNext(mode, es);
      StaleNext(After(mode, before), es[|es| - 1]);
    }
  }

  /** So a tunnel that holds its alias, with nothing gone wrong, may have a block on disk that names a dead port. */
  lemma AStaleBlockNamesADeadPort(mode: Mode)
    ensures var s := After(mode, [OldBlock, TakeLock(true)]);
      s.w.block == Stale && s.w.lock && !s.w.port && s.at == ConnectAt && Spoiled(s.exits.ran) == {}
  {
    var es := [OldBlock, TakeLock(true)];
    assert es[..1] == [OldBlock] && es[..1][..0] == [];
    assert After(mode, es[..1]) == Next(Init(mode), OldBlock);
  }

  /** With nothing gone wrong, the step that undoes what the session holds is still to come. */
  lemma StillToCome(mode: Mode, left: nat, waits: Waits, w: World, step: Cleanup)
    requires Held(mode, left, {}, waits, w) && Holds(w, step) && !Excused(waits, step)
    requires step == Withdraw || step == ClosePort || step == CloseLogin
    ensures left > PlaceOf(mode, step)
  {
    PlaceInThePlan(mode, step);
  }

  lemma HeldSoFar(mode: Mode, depth: nat, left: nat, w: World)
    requires Lasting(mode, depth, left, w) && left >= 8 + JobSteps(mode)
    ensures w.lock && (w.port <==> w.login) && (w.login <==> !w.lost)
  {
  }

  /** An open port means an open login connection, and that the alias's lock. */
  lemma APortMeansALock(mode: Mode, es: seq<Event>)
    ensures var s := After(mode, es);
      Spoiled(s.exits.ran) == {} ==> (s.w.port ==> s.w.login) && (s.w.login ==> s.w.lock)
  {
    RunsKeep(mode, es);
    ModeStays(mode, es);
    var s := After(mode, es);
    if Spoiled(s.exits.ran) == {} {
      if s.w.port {
        StillToCome(mode, |s.exits.stack|, s.waits, s.w, ClosePort);
      }
      if s.w.login {
        StillToCome(mode, |s.exits.stack|, s.waits, s.w, CloseLogin);
      }
    }
  }

  // The job

  /**
   Once `run` has ended, a job whose ID the session had was cancelled once, unless a
   query it had processed by then said that the job had ended: then never. With the
   monitor stopped, those are all the queries it processed. Without an ID, nothing
   was cancelled.
   */
  lemma TheJobIsCancelledOnce(mode: Mode, es: seq<Event>)
    ensures var s := After(mode, es);
      s.at == Ended ==>
        match s.job.id
        case None => s.job.bkills == []
        case Some(id) =>
          && s.job.inspectedAtCancel.Some?
          && s.job.inspectedAtCancel.value <= s.job.inspected
          && (s.job.bkills == if HasTerminal(s.job.inspectedAtCancel.value) then [] else [id])
          && (StopTask(Monitor) !in Spoiled(s.exits.ran) ==> s.job.inspectedAtCancel.value == s.job.inspected)
  {
    RunsKeep(mode, es);
    ModeStays(mode, es);
  }

  /**
   The session has the ID of every batch job whose submission returned one, even in
   the middle of a stop, unless it gave up on the submission.
   */
  lemma ASubmittedJobIsKnown(mode: Mode, es: seq<Event>)
    ensures var s := After(mode, es);
      s.at == Ended && s.waits.submitting.Some? && !GaveUp(s.waits.submitting) ==>
        s.job.id == if s.waits.submitting.value.step.Gave? then Some(s.waits.submitting.value.step.value) else None
  {
    RunsKeep(mode, es);
  }

  // Stopping

  /**
   Once the tunnel is stopping, the main task only moves on to the cleanup, where it
   is not cancelled any more; all that is still registered is a job's cancellation.
   */
  lemma NothingStartsAfterAStop(mode: Mode, es: seq<Event>, e: Event, step: Cleanup)
    ensures var s, t := After(mode, es), Next(After(mode, es), e);
      s.halt.why.Some? ==>
        && StaysStopped(s, t)
        && (Holds(t.w, step) && !Holds(s.w, step) ==> step == RemoveControl || step == Withdraw)
  {
    RunsKeep(mode, es);
    if After(mode, es).halt.why.Some? {
      StoppedNext(After(mode, es), e, step);
    }
  }

  lemma StoppedNext(s: State, e: Event, step: Cleanup)
    requires Inv(s) && s.halt.why.Some?
    ensures StaysStopped(s, Next(s, e))
    ensures Holds(Next(s, e).w, step) && !Holds(s.w, step) ==> step == RemoveControl || step == Withdraw
  {
    if e.OldBlock? {
    } else if OfMain(e) {
      StoppedMainNext(s, e);
    } else if e.CleanUp? || e.Exit? {
      StoppedCleanupNext(s, e, step);
    } else if OfTasks(e) {
      StoppedTaskNext(s, e, step);
    } else {
      StoppedAroundNext(s, e, step);
    }
  }

  lemma StoppedCleanupNext(s: State, e: Event, step: Cleanup)
    ensures StaysStopped(s, CleanupNext(s, e))
    ensures Holds(CleanupNext(s, e).w, step) ==> Holds(s.w, step)
  {
    if s.exits.stack != [] && e.CleanUp? {
      EffectOnlyUndoes(s.w, s.exits.stack[|s.exits.stack| - 1], e.outcome, s.job.finished, step);
    }
  }

  /** `t` differs from `s` as a stopping session may. */
  predicate StaysStopped(s: State, t: State) {
    && (t.at == s.at || t.at == Unwinding || t.at == Ended)
    && (t.exits.registered == s.exits.registered
        || (t.job.id.Some? && t.exits.registered == s.exits.registered + [CancelJob(t.job.id.value)]))
    && t.halt.why == s.halt.why && t.halt.error == s.halt.error && t.halt.cancels == s.halt.cancels
  }

  lemma StoppedMainNext(s: State, e: Event)
    requires Inv(s) && s.halt.why.Some? && OfMain(e)
    ensures StaysStopped(s, MainNext(s, e)) && MainNext(s, e).w == s.w
  {
    if e.Turn? {
      StoppedTurns(s);
    } else if e.Fail? || e.Deliver? {
      StoppedDirect(s, e);
    } else {
      NothingElseComes(s, e);
    }
  }

  lemma StoppedDirect(s: State, e: Event)
    requires s.halt.why.Some? && (e.Fail? || e.Deliver?)
    ensures StaysStopped(s, MainNext(s, e)) && MainNext(s, e).w == s.w
  {
  }

  lemma NothingElseComes(s: State, e: Event)
    requires Inv(s) && s.halt.why.Some? && OfMain(e) && !e.Turn? && !e.Fail? && !e.Deliver?
    ensures MainNext(s, e) == s
  {
  }

  lemma StoppedTurns(s: State)
    requires Inv(s) && s.halt.why.Some?
    ensures StaysStopped(s, Turns(s)) && Turns(s).w == s.w
  {
    if s.at == SubmitAt && s.waits.submitting.Some? {
      StoppedSubmitTurn(s);
    } else if s.at == PublishAt && s.waits.publishing.Some? {
      StoppedPublishTurn(s);
    }
  }

  lemma StoppedSubmitTurn(s: State)
    requires Inv(s) && s.halt.why.Some? && s.at == SubmitAt && s.waits.submitting.Some?
    ensures StaysStopped(s, SubmitTurn(s)) && SubmitTurn(s).w == s.w
  {
  }

  lemma StoppedPublishTurn(s: State)
    requires Inv(s) && s.halt.why.Some? && s.at == PublishAt && s.waits.publishing.Some?
    ensures StaysStopped(s, PublishTurn(s)) && PublishTurn(s).w == s.w
  {
  }

  lemma StoppedAroundNext(s: State, e: Event, step: Cleanup)
    ensures StaysStopped(s, AroundNext(s, e))
    ensures Holds(AroundNext(s, e).w, step) && !Holds(s.w, step) ==> step == RemoveControl || step == Withdraw
  {
  }

  lemma StoppedTaskNext(s: State, e: Event, step: Cleanup)
    requires s.halt.why.Some?
    ensures StaysStopped(s, TaskNext(s, e))
    ensures Holds(TaskNext(s, e).w, step) ==> Holds(s.w, step)
  {
    TasksOnlyEnd(s, e);
    var task := TaskOf(e);
    UndoOnlyUndoes(s.w, StopTask(task), step);
  }

  /** The background task that an event may end. */
  function TaskOf(e: Event): Task {
    match e
    case TaskFails(task, _) => task
    case TaskEnds(task) => task
    case WatcherSees => Watcher
    case _ => Monitor
  }

  lemma TasksOnlyEnd(s: State, e: Event)
    requires s.halt.why.Some?
    ensures StaysStopped(s, TaskNext(s, e))
    ensures TaskNext(s, e).w == s.w || TaskNext(s, e).w == Undo(s.w, StopTask(TaskOf(e)))
  {
  }

  // A loss

  /** Nothing has gone wrong so far. */
  predicate Unharmed(s: State, at: At) {
    s.at == at && !s.halt.pending && s.halt.why.None? && !s.w.lost
  }

  function FirstWait(mode: Mode): Option<F.Finish<JobId>> {
    if mode == Batch then Some(F.Start()) else None
  }

  lemma MakeSiblings(s: State)
    requires Unharmed(s, GatherAt) && s.waits.siblings == (Making, Making) && s.waits.creating == Some(F.Start())
    ensures var t := From(s, [SiblingEnds(true, true), SiblingEnds(false, true), Creation(F.Completes(()))]);
      && Unharmed(t, GatherAt) && t.mode == s.mode && t.waits.siblings == (Made, Made)
      && t.waits.creating == Some(F.Finish(F.Gave(()), F.Shielded, false, false, []))
  {
    From3(s, SiblingEnds(true, true), SiblingEnds(false, true), Creation(F.Completes(())));
  }

  lemma MakeControl(s: State)
    requires Unharmed(s, GatherAt) && s.waits.siblings == (Made, Made)
    requires s.waits.creating == Some(F.Finish(F.Gave(()), F.Shielded, false, false, []))
    ensures var t := From(s, [Creation(F.Resume), Turn, Proceed]);
      Unharmed(t, SubmitAt) && t.mode == s.mode && t.waits.submitting == FirstWait(s.mode)
  {
    From3(s, Creation(F.Resume), Turn, Proceed);
    AllAreMade(s);
    GatherIsOver(Next(s, Creation(F.Resume)));
    FirstLease(Next(Next(s, Creation(F.Resume)), Turn));
  }

  lemma AllAreMade(s: State)
    requires Unharmed(s, GatherAt) && s.waits.siblings == (Made, Made)
    requires s.waits.creating == Some(F.Finish(F.Gave(()), F.Shielded, false, false, []))
    ensures Next(s, Creation(F.Resume)).mode == s.mode
    ensures Unharmed(Next(s, Creation(F.Resume)), GatherAt) && AllMade(Next(s, Creation(F.Resume)).waits)
  {
  }

  lemma GatherIsOver(s: State)
    requires Unharmed(s, GatherAt) && AllMade(s.waits)
    ensures Unharmed(Next(s, Turn), LeaseAt) && Next(s, Turn).mode == s.mode
  {
  }

  lemma FirstLease(s: State)
    requires Unharmed(s, LeaseAt)
    ensures Next(s, Proceed).mode == s.mode
    ensures Unharmed(Next(s, Proceed), SubmitAt) && Next(s, Proceed).waits.submitting == FirstWait(s.mode)
  {
  }

  lemma RunJob(s: State)
    requires Unharmed(s, SubmitAt) && s.waits.submitting == Some(F.Start())
    ensures Unharmed(From(s, [Submission(F.Completes("7")), Turn, Polled(Running, true)]), PortAt)
  {
    From3(s, Submission(F.Completes("7")), Turn, Polled(Running, true));
    SubmissionReturns(s);
    FirstPoll(Next(Next(s, Submission(F.Completes("7"))), Turn));
  }

  lemma SubmissionReturns(s: State)
    requires Unharmed(s, SubmitAt) && s.waits.submitting == Some(F.Start())
    ensures Unharmed(Next(Next(s, Submission(F.Completes("7"))), Turn), JobAt)
  {
    var f: F.Finish<JobId> := F.Finish(F.Gave("7"), F.Shielded, false, false, []);
    assert Next(s, Submission(F.Completes("7"))) == s.(waits := s.waits.(submitting := Some(f)));
  }

  lemma FirstPoll(s: State)
    requires Unharmed(s, JobAt)
    ensures Unharmed(Next(s, Polled(Running, true)), PortAt)
  {
  }

  lemma Forward(s: State)
    requires Unharmed(s, PortAt)
    ensures var t := From(s, [Proceed, Proceed, Proceed]);
      Unharmed(t, PublishAt) && t.waits.publishing == Some(F.Start())
  {
    From3(s, Proceed, Proceed, Proceed);
  }

  /** From the `gather` to the submission, and from there to a block on disk. */
  const TO_SUBMISSION: seq<Event> :=
    [SiblingEnds(true, true), SiblingEnds(false, true), Creation(F.Completes(()))]
    + [Creation(F.Resume), Turn, Proceed]

  const TO_BLOCK: seq<Event> :=
    [Submission(F.Completes("7")), Turn, Polled(Running, true)] + ([Proceed, Proceed, Proceed] + [BlockAppears])

  lemma ToSubmission(s: State)
    requires Unharmed(s, GatherAt) && s.waits.siblings == (Making, Making) && s.waits.creating == Some(F.Start())
    ensures Unharmed(From(s, TO_SUBMISSION), SubmitAt)
    ensures From(s, TO_SUBMISSION).mode == s.mode && From(s, TO_SUBMISSION).waits.submitting == FirstWait(s.mode)
  {
    MakeSiblings(s);
    var making := [SiblingEnds(true, true), SiblingEnds(false, true), Creation(F.Completes(()))];
    MakeControl(From(s, making));
    FromConcat(s, making, [Creation(F.Resume), Turn, Proceed]);
  }

  lemma ToBlock(s: State)
    requires Unharmed(s, SubmitAt) && s.waits.submitting == Some(F.Start())
    ensures Unharmed(From(s, TO_BLOCK), PublishAt) && From(s, TO_BLOCK).w.block == Own
  {
    var job, forward := [Submission(F.Completes("7")), Turn, Polled(Running, true)], [Proceed, Proceed, Proceed];
    RunJob(s);
    Forward(From(s, job));
    BlockComes(From(From(s, job), forward));
    FromParts(s, job, forward, BlockAppears);
  }

  lemma BlockComes(s: State)
    requires Unharmed(s, PublishAt) && s.waits.publishing == Some(F.Start())
    ensures Unharmed(Next(s, BlockAppears), PublishAt) && Next(s, BlockAppears).w.block == Own
  {
  }

  lemma FromParts(s: State, a: seq<Event>, b: seq<Event>, e: Event)
    ensures From(s, a + (b + [e])) == Next(From(From(s, a), b), e)
  {
    FromConcat(s, a, b + [e]);
    FromConcat(From(s, a), b, [e]);
    FromOne(From(From(s, a), b), e);
  }

  lemma TheBlockAppears()
    ensures var s := After(Batch, TO_GATHER + (TO_SUBMISSION + TO_BLOCK));
      Unharmed(s, PublishAt) && s.w.block == Own
  {
    ToGather(Batch);
    ModeStays(Batch, TO_GATHER);
    var s := After(Batch, TO_GATHER);
    ToSubmission(s);
    ToBlock(From(s, TO_SUBMISSION));
    FromConcat(s, TO_SUBMISSION, TO_BLOCK);
    AfterFrom(Batch, TO_GATHER, TO_SUBMISSION + TO_BLOCK);
  }

  /** Losing the connection closes the port at once, and leaves the block for the cleanup to remove. */
  lemma ALossLeavesTheBlockWithoutItsPort()
    ensures exists es :: var s := After(Batch, es); s.w.block == Own && !s.w.port && s.w.lock && Spoiled(s.exits.ran) == {}
  {
    hide Inv, Next, Unharmed;
    TheBlockAppears();
    var es := TO_GATHER + (TO_SUBMISSION + TO_BLOCK);
    RunsKeep(Batch, es);
    AfterFrom(Batch, es, [LoseLogin]);
    FromOne(After(Batch, es), LoseLogin);
    LossClosesThePort(After(Batch, es));
  }

  lemma LossClosesThePort(s: State)
    requires Inv(s) && Unharmed(s, PublishAt) && s.w.block == Own
    ensures var t := Next(s, LoseLogin); t.w.block == Own && !t.w.port && t.w.lock && Spoiled(t.exits.ran) == {}
  {
  }
}
