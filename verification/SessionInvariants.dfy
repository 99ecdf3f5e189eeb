/** What every run of the session keeps. */
module SessionInvariants {
  import opened Prelude
  import F = Finishing
  import opened Session

  // The order in which cleanup is registered

  /** How many cleanup steps a job has. */
  function JobSteps(mode: Mode): nat {
    if mode == Batch then 1 else 3
  }

  /** The cleanup step registered as number `i`. */
  function PlanAt(mode: Mode, id: JobId, i: nat): Cleanup {
    var j := JobSteps(mode);
    if i == 0 then ReleaseLock
    else if i == 1 then CloseLogin
    else if i == 2 then StopTask(Watcher)
    else if i == 3 then CloseSftp
    else if i == 4 then RemoveControl
    else if i == 4 + j then CancelJob(id)
    else if i == 5 && mode == Interactive then CloseShell
    else if i == 6 && mode == Interactive then StopTask(Output)
    else if i == 5 + j then StopTask(Heartbeats)
    else if i == 6 + j then ClosePort
    else if i == 7 + j then Withdraw
    else StopTask(Monitor)
  }

  function IdOf(id: Option<JobId>): JobId {
    if id.Some? then id.value else ""
  }

  /** How many cleanup steps are registered while the main task is at `at`. */
  function Depth(mode: Mode, at: At): nat {
    var j := JobSteps(mode);
    match at
    case Begin => 0
    case ConnectAt => 1
    case PrepareAt => 3
    case SftpAt => 3
    case GatherAt => 5
    case LeaseAt => 5
    case SubmitAt => 5
    case CommandAt => 5 + j
    case JobAt => 5 + j
    case PortAt => 5 + j
    case EndpointAt => 6 + j
    case ForwardAt => 6 + j
    case PublishAt => 8 + j
    case ServeAt => 9 + j
    case _ => 0
  }

  predicate CleaningUp(at: At) {
    at == Unwinding || at == Ended
  }

  /** The cleanup steps that did not do what they are for. */
  function Spoiled(ran: seq<Ran>): set<Cleanup> {
    if ran == [] then {}
    else
      var last := ran[|ran| - 1];
      Spoiled(ran[..|ran| - 1]) + if last.outcome == Fine then {} else {last.step}
  }

  lemma SpoiledNext(ran: seq<Ran>, last: Ran)
    ensures Spoiled(ran + [last]) == Spoiled(ran) + if last.outcome == Fine then {} else {last.step}
  {
    assert (ran + [last])[..|ran|] == ran;
  }

  predicate HasTerminal(states: seq<JobState>) {
    exists i :: 0 <= i < |states| && states[i].Terminal()
  }

  predicate GaveUp<T>(f: Option<F.Finish<T>>) {
    f.Some? && f.value.at == F.GaveUp
  }

  // The invariants

  /** What is registered, what is left of it, and what has run. */
  ghost predicate Stacked(mode: Mode, id: Option<JobId>, x: Exits, at: At) {
    && |x.registered| <= 9 + JobSteps(mode)
    && (forall i :: 0 <= i < |x.registered| ==> x.registered[i] == PlanAt(mode, IdOf(id), i))
    && (id.None? ==> |x.registered| <= 5)
    && (id.Some? ==> |x.registered| >= 5 + JobSteps(mode))
    && (!CleaningUp(at) ==>
          x.stack == x.registered && x.ran == [] && |x.registered| == Depth(mode, at))
    && |x.stack| + |x.ran| == |x.registered|
    && (forall i :: 0 <= i < |x.stack| ==> x.stack[i] == x.registered[i])
    && (forall i :: 0 <= i < |x.ran| ==> x.ran[i].step == x.registered[|x.registered| - 1 - i])
    && (at == Ended ==> x.stack == [])
  }

  /** The steps that `_finish` waits for, with `depth` cleanup steps registered. */
  ghost predicate Finishes(mode: Mode, depth: nat, waits: Waits, at: At) {
    && (waits.creating.Some? <==> depth >= 5)
    && (waits.creating.Some? ==> F.Sound(waits.creating.value))
    && (UnderWay(waits.creating) ==> at == GatherAt || waits.loose || GaveUp(waits.creating))
    && (waits.loose ==> waits.siblings.0 == Unmade || waits.siblings.1 == Unmade || GaveUp(waits.creating))
    && (depth > 5 || at == LeaseAt || at == SubmitAt ==> AllMade(waits))
    && (waits.submitting.Some? ==> mode == Batch && AllMade(waits) && F.Sound(waits.submitting.value))
    && (waits.submitting.Some? ==> (at == SubmitAt <==> !waits.submitting.value.Ended()))
    && (at == SubmitAt && mode == Batch ==> waits.submitting.Some?)
    && (waits.publishing.Some? <==> depth >= 8 + JobSteps(mode))
    && (waits.publishing.Some? ==> F.Sound(waits.publishing.value))
    && (waits.publishing.Some? ==> (at == PublishAt <==> !waits.publishing.value.Ended()))
  }

  /** In the second of `_finish`'s waits: the cancellation was delivered, and the stop is to follow. */
  predicate WaitingOn<T>(f: Option<F.Finish<T>>) {
    f.Some? && f.value.at == F.Waiting
  }

  /** A cancelled `gather` of which only the control directory's creation is to come. */
  predicate GatherStopping(waits: Waits) {
    && waits.siblings == (Made, Made)
    && waits.creating.Some?
    && (waits.creating.value.cancelled || waits.creating.value.at == F.Waiting)
  }

  /** The phase reported while the main task is at `at`, unless the tunnel is stopping. An interrupted prompt leaves it. */
  function PhaseAt(at: At): Phase {
    match at
    case Begin => Connecting
    case ConnectAt => Connecting
    case PrepareAt => Preparing
    case SftpAt => Preparing
    case GatherAt => Preparing
    case LeaseAt => Preparing
    case SubmitAt => Submitting
    case CommandAt => Queued
    case JobAt => Queued
    case PortAt => Starting
    case EndpointAt => Starting
    case ForwardAt => Starting
    case PublishAt => Starting
    case ServeAt => Serving
    case _ => Connecting
  }

  /** Why the tunnel stops, and the cancellation of its main task. */
  ghost predicate Halted(h: Halt, waits: Waits, at: At) {
    && (h.why.Some? <==> h.stops != [])
    && (h.why.Some? ==> h.why == Some(h.stops[0].1) && h.error == h.stops[0].0 && h.phase == Stopping)
    && (h.why.None? ==> h.error.None? && h.phase == PhaseAt(at) && !h.cancelledMain)
    && h.cancels == (if h.cancelledMain then 1 else 0)
    && (at == Begin ==> h.why.None?)
    && (h.pending ==> h.cancelledMain && (at.Awaiting() || h.passing.Some?))
    && (at.Awaiting() && h.why.Some? ==>
          || h.pending
          || (at == SubmitAt && WaitingOn(waits.submitting))
          || (at == PublishAt && WaitingOn(waits.publishing)))
    && ((at == SubmitAt && WaitingOn(waits.submitting)) || (at == PublishAt && WaitingOn(waits.publishing)) ==>
          h.why.Some?)
    && (at == GatherAt && h.pending ==> GatherOver(waits) || GatherStopping(waits))
    && (at == SubmitAt && waits.submitting.Some? ==> waits.submitting.value.cancelled == h.pending)
    && (at == PublishAt && waits.publishing.Some? ==> waits.publishing.value.cancelled == h.pending)
    && (at == Ended ==> h.raised == if h.passing.Some? then h.passing else h.error)
  }

  predicate NoneCut(ran: seq<Ran>) {
    forall i :: 0 <= i < |ran| ==> !ran[i].Cut?
  }

  /**
   The cleanup is that of a stop, and no cancellation comes in it; or it is that of an
   interrupted prompt, of which there is one step, and the first stop after the interrupt
   cancels the main task there.
   */
  ghost predicate Passed(h: Halt, x: Exits, at: At) {
    match h.passing
    case None => (CleaningUp(at) ==> h.why.Some? && !h.pending) && NoneCut(x.ran)
    case Some(KeyboardInterrupt) =>
      && CleaningUp(at) && x.registered == [ReleaseLock] && h.error.None? && NoneCut(x.ran)
      && (h.why.Some? ==> at == Unwinding && x.stack != [] && h.pending)
    case Some(CancelledError) =>
      && CleaningUp(at) && x.registered == [ReleaseLock] && h.error.None? && x.stack == []
      && |x.ran| == 1 && x.ran[0].Cut? && h.why.Some? && !h.pending
    case _ => false
  }

  /** The job and its cancellation, with `left` cleanup steps left to run. */
  ghost predicate Jobs(mode: Mode, job: JobRecord, submitting: Option<F.Finish<JobId>>, left: nat) {
    && job.finished == HasTerminal(job.inspected)
    && (submitting.Some? ==>
          job.id == if submitting.value.calls == [] then None else Some(submitting.value.calls[0]))
    && (job.id.None? || left >= 5 + JobSteps(mode) ==> job.bkills == [] && job.inspectedAtCancel.None?)
    && (job.id.Some? && left < 5 + JobSteps(mode) ==>
          && job.inspectedAtCancel.Some?
          && job.inspectedAtCancel.value <= job.inspected
          && job.bkills == if HasTerminal(job.inspectedAtCancel.value) then [] else [job.id.value])
  }

  /** Whether what `step` undoes is to be undone. */
  predicate Holds(w: World, step: Cleanup) {
    match step
    case ReleaseLock => w.lock
    case CloseLogin => w.login
    case StopTask(task) => task in w.tasks
    case CloseSftp => w.sftp
    case RemoveControl => w.control
    case CloseShell => w.shell
    case CancelJob(_) => false
    case ClosePort => w.port
    case Withdraw => w.block == Own
  }

  /** What `step` undoes may come about after its turn. */
  predicate Excused(waits: Waits, step: Cleanup) {
    || (step == RemoveControl && (waits.loose || GaveUp(waits.creating)))
    || (step == Withdraw && GaveUp(waits.publishing))
  }

  /** Whatever the session holds, the step that lets go of it is still to come, or went wrong. */
  ghost predicate Held(mode: Mode, left: nat, spoiled: set<Cleanup>, waits: Waits, w: World) {
    && (forall i :: left <= i < 9 + JobSteps(mode) && Holds(w, PlanAt(mode, "", i)) ==>
          PlanAt(mode, "", i) in spoiled || Excused(waits, PlanAt(mode, "", i)))
    && (mode == Batch ==> !w.shell && Output !in w.tasks)
  }

  /** Until its turn in the cleanup, what was acquired is held, or was lost with the connection. */
  ghost predicate Lasting(mode: Mode, depth: nat, left: nat, w: World) {
    && (left >= 1 ==> w.lock)
    && (left >= 2 ==> w.login || w.lost)
    && (left >= 7 + JobSteps(mode) ==> w.port || w.lost)
    && (w.lost ==> !w.login && !w.port && !w.sftp && depth >= 2)
    && (w.login ==> depth >= 2)
  }

  /** Once the monitor is stopped, no job state is processed after the cancellation's turn. */
  ghost predicate Settled(job: JobRecord, spoiled: set<Cleanup>) {
    job.inspectedAtCancel.Some? && StopTask(Monitor) !in spoiled ==>
      job.inspectedAtCancel.value == job.inspected
  }

  ghost predicate Inv(s: State) {
    var left, spoiled := |s.exits.stack|, Spoiled(s.exits.ran);
    && Stacked(s.mode, s.job.id, s.exits, s.at)
    && Finishes(s.mode, |s.exits.registered|, s.waits, s.at)
    && Halted(s.halt, s.waits, s.at)
    && Passed(s.halt, s.exits, s.at)
    && Jobs(s.mode, s.job, s.waits.submitting, left)
    && Held(s.mode, left, spoiled, s.waits, s.w)
    && Lasting(s.mode, |s.exits.registered|, left, s.w)
    && Settled(s.job, spoiled)
  }

  lemma InitInv(mode: Mode)
    ensures Inv(Init(mode))
  {
  }

  // Every event keeps them

  lemma HasTerminalNext(states: seq<JobState>, state: JobState)
    ensures HasTerminal(states + [state]) == (HasTerminal(states) || state.Terminal())
  {
    var all := states + [state];
    if HasTerminal(states) {
      var i :| 0 <= i < |states| && states[i].Terminal();
      assert all[i].Terminal();
    }
    if state.Terminal() {
      assert all[|states|].Terminal();
    }
  }

  lemma MainFailsKeeps(s: State, error: Error)
    requires Inv(s) && s.at.Awaiting() && (s.at == GatherAt ==> s.waits.loose || !UnderWay(s.waits.creating))
    requires s.at == SubmitAt ==> s.waits.submitting.None?
    requires s.at != PublishAt
    ensures Inv(MainFails(s, error))
  {
  }

  lemma StepFailsKeeps(s: State, code: nat)
    requires Inv(s) && Direct(s)
    ensures Inv(MainFails(s, Failure(code)))
  {
    MainFailsKeeps(s, Failure(code));
  }

  lemma InterruptsKeeps(s: State)
    requires Inv(s) && AtPrompt(s)
    ensures Inv(Interrupts(s))
  {
  }

  lemma TakesLockKeeps(s: State, free: bool)
    requires Inv(s) && s.at == Begin
    ensures Inv(TakesLock(s, free))
  {
  }

  lemma ConnectsKeeps(s: State)
    requires Inv(s) && s.at == ConnectAt && !s.halt.pending
    ensures Inv(Connects(s))
  {
    hide Stacked;
    ConnectsStack(s.mode, s.job.id, s.exits);
  }

  lemma ConnectsStack(mode: Mode, id: Option<JobId>, x: Exits)
    requires Stacked(mode, id, x, ConnectAt)
    ensures Stacked(mode, id, Push(x, [CloseLogin, StopTask(Watcher)]), PrepareAt)
    ensures id.None? && |x.stack| == |x.registered| == 1 && x.ran == []
  {
  }

  lemma OpensSftpKeeps(s: State)
    requires Inv(s) && s.at == SftpAt && !s.halt.pending
    ensures Inv(OpensSftp(s))
  {
  }

  lemma StartsSubmissionKeeps(s: State)
    requires Inv(s) && s.at == LeaseAt && !s.halt.pending
    ensures Inv(StartsSubmission(s))
  {
  }

  lemma OpensShellKeeps(s: State, id: JobId)
    requires Inv(s) && s.at == SubmitAt && s.mode == Interactive && !s.halt.pending
    ensures Inv(OpensShell(s, id))
  {
    var t := OpensShell(s, id);
    assert Stacked(t.mode, t.job.id, t.exits, t.at);
    assert Held(t.mode, |t.exits.stack|, Spoiled(t.exits.ran), t.waits, t.w);
  }

  lemma LearnsPortKeeps(s: State)
    requires Inv(s) && s.at == PortAt && !s.halt.pending
    ensures Inv(LearnsPort(s))
  {
    hide Stacked;
    HeartbeatsStack(s.mode, s.job.id, s.exits);
  }

  lemma HeartbeatsStack(mode: Mode, id: Option<JobId>, x: Exits)
    requires Stacked(mode, id, x, PortAt)
    ensures Stacked(mode, id, Push(x, [StopTask(Heartbeats)]), EndpointAt)
    ensures id.Some? && |x.stack| == |x.registered| == 5 + JobSteps(mode) && x.ran == []
  {
  }

  lemma ForwardsKeeps(s: State)
    requires Inv(s) && s.at == ForwardAt && !s.halt.pending
    ensures Inv(Forwards(s))
  {
    ForwardsStack(s.mode, s.job.id, s.exits);
    PublicationStarts(s.mode, |s.exits.registered|, s.waits);
    PortIsHeld(s.mode, |s.exits.registered|, s.waits, s.w);
  }

  lemma ForwardsStack(mode: Mode, id: Option<JobId>, x: Exits)
    requires Stacked(mode, id, x, ForwardAt)
    ensures Stacked(mode, id, Push(x, [ClosePort, Withdraw]), PublishAt)
  {
  }

  lemma PublicationStarts(mode: Mode, depth: nat, waits: Waits)
    requires Finishes(mode, depth, waits, ForwardAt) && depth == Depth(mode, ForwardAt)
    ensures var now := waits.(publishing := Some(F.Start()));
      Finishes(mode, depth + 2, now, PublishAt) && !GaveUp(waits.publishing) && !GaveUp(now.publishing)
  {
  }

  lemma PortIsHeld(mode: Mode, depth: nat, waits: Waits, w: World)
    requires Held(mode, depth, {}, waits, w) && Lasting(mode, depth, depth, w) && depth == Depth(mode, ForwardAt)
    requires !GaveUp(waits.publishing)
    ensures var now, after := waits.(publishing := Some(F.Start())), w.(port := !w.lost, stray := false);
      Held(mode, depth + 2, {}, now, after) && Lasting(mode, depth + 2, depth + 2, after)
  {
  }

  lemma StackUnwinds(mode: Mode, id: Option<JobId>, x: Exits, at: At)
    requires Stacked(mode, id, x, at) && at.Awaiting()
    ensures Stacked(mode, id, x, Unwinding) && x.ran == []
  {
  }

  lemma PublicationReturnsKeeps(s: State)
    requires Inv(s) && s.at == PublishAt && s.waits.publishing.Some?
    requires F.Resumed(s.waits.publishing.value).at == F.Returned
    ensures Inv(PublishTurn(s))
  {
    hide Stacked;
    MonitorStack(s.mode, s.job.id, s.exits);
  }

  lemma MonitorStack(mode: Mode, id: Option<JobId>, x: Exits)
    requires Stacked(mode, id, x, PublishAt)
    ensures Stacked(mode, id, Push(x, [StopTask(Monitor)]), ServeAt)
    ensures |x.stack| == |x.registered| == 8 + JobSteps(mode) && x.ran == []
  {
  }

  lemma PublicationRaisesKeeps(s: State)
    requires Inv(s) && s.at == PublishAt && s.waits.publishing.Some?
    requires F.Resumed(s.waits.publishing.value).at == F.Raised
    ensures Inv(PublishTurn(s))
  {
    hide Stacked;
    StackUnwinds(s.mode, s.job.id, s.exits, s.at);
  }

  lemma PublicationStopsKeeps(s: State)
    requires Inv(s) && s.at == PublishAt && s.waits.publishing.Some?
    requires var f := F.Resumed(s.waits.publishing.value); f.at == F.Stopped || f.at == F.GaveUp
    ensures Inv(PublishTurn(s))
  {
    hide Stacked;
    StackUnwinds(s.mode, s.job.id, s.exits, s.at);
  }

  /** The publication's wait with its new record `f`, and the cancellation delivered if that is what came. */
  lemma PublicationHeld(mode: Mode, depth: nat, h: Halt, waits: Waits, f: F.Finish<()>)
    requires Finishes(mode, depth, waits, PublishAt) && Halted(h, waits, PublishAt)
    requires waits.publishing.Some? && f == F.Resumed(waits.publishing.value) && !f.Ended()
    ensures var now := waits.(publishing := Some(f));
      && Finishes(mode, depth, now, PublishAt)
      && Halted(if f.at == F.Waiting then h.(pending := false) else h, now, PublishAt)
      && GaveUp(now.publishing) == GaveUp(waits.publishing)
  {
  }

  lemma PublicationWaitsKeeps(s: State)
    requires Inv(s) && s.at == PublishAt && s.waits.publishing.Some?
    requires !F.Resumed(s.waits.publishing.value).Ended()
    ensures Inv(PublishTurn(s))
  {
    PublicationHeld(s.mode, |s.exits.registered|, s.halt, s.waits, F.Resumed(s.waits.publishing.value));
  }

  lemma SubmissionReturnsKeeps(s: State)
    requires Inv(s) && s.at == SubmitAt && s.waits.submitting.Some?
    requires F.Resumed(s.waits.submitting.value).at == F.Returned
    ensures Inv(SubmitTurn(s))
  {
    hide Stacked;
    JobStack(s.job.id, s.exits, F.Resumed(s.waits.submitting.value).calls[0]);
  }

  /** The cancellation of a batch job is the next step of the plan. */
  lemma JobStack(id: Option<JobId>, x: Exits, job: JobId)
    requires Stacked(Batch, id, x, SubmitAt)
    ensures Stacked(Batch, Some(job), Push(x, [CancelJob(job)]), JobAt)
    ensures Stacked(Batch, Some(job), Push(x, [CancelJob(job)]), Unwinding)
    ensures |x.stack| == |x.registered| == 5 && x.ran == []
  {
  }

  lemma SubmissionRaisesKeeps(s: State)
    requires Inv(s) && s.at == SubmitAt && s.waits.submitting.Some?
    requires F.Resumed(s.waits.submitting.value).at == F.Raised
    ensures Inv(SubmitTurn(s))
  {
    hide Stacked;
    StackUnwinds(s.mode, s.job.id, s.exits, s.at);
  }

  lemma SubmissionStopsKeeps(s: State)
    requires Inv(s) && s.at == SubmitAt && s.waits.submitting.Some?
    requires var f := F.Resumed(s.waits.submitting.value); f.at == F.Stopped || f.at == F.GaveUp
    ensures Inv(SubmitTurn(s))
  {
    if F.Resumed(s.waits.submitting.value).calls == [] {
      SubmissionStopsWithoutJob(s);
    } else {
      SubmissionStopsWithJob(s);
    }
  }

  lemma SubmissionStopsWithoutJob(s: State)
    requires Inv(s) && s.at == SubmitAt && s.waits.submitting.Some?
    requires var f := F.Resumed(s.waits.submitting.value); (f.at == F.Stopped || f.at == F.GaveUp) && f.calls == []
    ensures Inv(SubmitTurn(s))
  {
    hide Stacked;
    StackUnwinds(s.mode, s.job.id, s.exits, s.at);
  }

  lemma SubmissionStopsWithJob(s: State)
    requires Inv(s) && s.at == SubmitAt && s.waits.submitting.Some?
    requires var f := F.Resumed(s.waits.submitting.value); (f.at == F.Stopped || f.at == F.GaveUp) && f.calls != []
    ensures Inv(SubmitTurn(s))
  {
    hide Stacked;
    JobStack(s.job.id, s.exits, F.Resumed(s.waits.submitting.value).calls[0]);
  }

  /** As for the publication, of the submission. */
  lemma SubmissionHeld(mode: Mode, depth: nat, h: Halt, waits: Waits, f: F.Finish<JobId>)
    requires Finishes(mode, depth, waits, SubmitAt) && Halted(h, waits, SubmitAt)
    requires waits.submitting.Some? && f == F.Resumed(waits.submitting.value) && !f.Ended()
    ensures var now := waits.(submitting := Some(f));
      && Finishes(mode, depth, now, SubmitAt)
      && Halted(if f.at == F.Waiting then h.(pending := false) else h, now, SubmitAt)
      && f.calls == waits.submitting.value.calls
  {
  }

  lemma SubmissionWaitsKeeps(s: State)
    requires Inv(s) && s.at == SubmitAt && s.waits.submitting.Some?
    requires !F.Resumed(s.waits.submitting.value).Ended()
    ensures Inv(SubmitTurn(s))
  {
    SubmissionHeld(s.mode, |s.exits.registered|, s.halt, s.waits, F.Resumed(s.waits.submitting.value));
  }

  lemma TurnsKeeps(s: State)
    requires Inv(s)
    ensures Inv(Turns(s))
  {
    hide Inv;
    if s.at == GatherAt {
      GatherTurnKeeps(s);
    } else if s.at == SubmitAt && s.waits.submitting.Some? {
      var f := F.Resumed(s.waits.submitting.value);
      if f.at == F.Returned {
        SubmissionReturnsKeeps(s);
      } else if f.at == F.Raised {
        SubmissionRaisesKeeps(s);
      } else if f.Ended() {
        SubmissionStopsKeeps(s);
      } else {
        SubmissionWaitsKeeps(s);
      }
    } else if s.at == PublishAt && s.waits.publishing.Some? {
      var f := F.Resumed(s.waits.publishing.value);
      if f.at == F.Returned {
        PublicationReturnsKeeps(s);
      } else if f.at == F.Raised {
        PublicationRaisesKeeps(s);
      } else if f.Ended() {
        PublicationStopsKeeps(s);
      } else {
        PublicationWaitsKeeps(s);
      }
    }
  }

  lemma GatherFailsKeeps(s: State)
    requires Inv(s) && s.at == GatherAt && GatherOver(s.waits) && !AllMade(s.waits) && !s.halt.pending
    ensures Inv(GatherTurn(s))
  {
    var loosed := s.(waits := s.waits.(loose := s.waits.creating.Some? && s.waits.creating.value.step.Busy?));
    assert Inv(loosed);
    MainFailsKeeps(loosed, Failure(1));
  }

  lemma GatherStopsKeeps(s: State)
    requires Inv(s) && s.at == GatherAt && s.halt.pending
    ensures Inv(GatherTurn(s))
  {
  }

  lemma GatherTurnKeeps(s: State)
    requires Inv(s) && s.at == GatherAt
    ensures Inv(GatherTurn(s))
  {
    if s.halt.pending {
      GatherStopsKeeps(s);
    } else if GatherOver(s.waits) && !AllMade(s.waits) {
      GatherFailsKeeps(s);
    }
  }

  lemma UnwindKeeps(s: State)
    requires Inv(s) && Direct(s) && s.halt.pending
    ensures Inv(Unwind(s))
  {
  }

  lemma InspectsKeeps(s: State, state: JobState)
    requires Inv(s) && (s.exits.registered == [] || Polling(s) || Monitor in s.w.tasks)
    ensures Inv(s.(job := Inspects(s.job, state)))
  {
    HasTerminalNext(s.job.inspected, state);
    assert PlanAt(s.mode, "", 8 + JobSteps(s.mode)) == StopTask(Monitor);
  }

  lemma RunsAtLastKeeps(s: State)
    requires Inv(s) && s.at == JobAt && !s.halt.pending
    ensures Inv(s.(halt := Report(s.halt, Starting), at := PortAt))
  {
  }

  lemma PolledFails(s: State, error: Error)
    requires Inv(s) && Polling(s)
    ensures Inv(MainFails(s, error))
  {
    MainFailsKeeps(s, error);
  }

  lemma PollsKeeps(s: State, state: JobState, hosted: bool)
    requires Inv(s) && Polling(s) && !s.halt.pending
    ensures Inv(Polls(s, state, hosted))
  {
    hide Inv, MainFails, Report;
    InspectsKeeps(s, state);
    var s := s.(job := Inspects(s.job, state));
    if s.at == JobAt && state == Running && hosted {
      RunsAtLastKeeps(s);
    } else if state == Unknown || state.Terminal() {
      PolledFails(s, if state == Unknown then StrangeState else JobOver(state));
    }
  }

  lemma WaitsKeep(s: State, first: bool, made: bool)
    requires Inv(s)
    ensures Inv(s.(waits := EndSibling(s.waits, first, made)))
  {
    hide Stacked, Lasting, Jobs, Settled, Passed;
  }

  lemma CreateFinishes(mode: Mode, depth: nat, waits: Waits, at: At, e: F.Event<()>)
    requires Finishes(mode, depth, waits, at)
    ensures Finishes(mode, depth, Create(waits, e), at)
  {
  }

  lemma CreateKeeps(s: State, e: F.Event<()>)
    requires Inv(s)
    ensures Inv(s.(waits := Create(s.waits, e)))
  {
    hide Stacked, Lasting, Jobs, Settled, Passed;
    CreateFinishes(s.mode, |s.exits.registered|, s.waits, s.at, e);
  }

  lemma SubmitFinishes(mode: Mode, depth: nat, waits: Waits, at: At, e: F.Event<JobId>)
    requires Finishes(mode, depth, waits, at)
    ensures Finishes(mode, depth, Submit(waits, e), at)
  {
  }

  lemma SubmitKeeps(s: State, e: F.Event<JobId>)
    requires Inv(s)
    ensures Inv(s.(waits := Submit(s.waits, e)))
  {
    SubmitFinishes(s.mode, |s.exits.registered|, s.waits, s.at, e);
  }

  lemma PublishKeeps(s: State, e: F.Event<()>)
    requires Inv(s)
    ensures Inv(s.(waits := Publish(s.waits, e)))
  {
    hide Stacked, Held, Lasting, Jobs;
    PublishFinishes(s.mode, |s.exits.registered|, s.waits, s.at, e);
    HeldWith(s.mode, |s.exits.stack|, Spoiled(s.exits.ran), s.waits, Publish(s.waits, e), s.w);
  }

  lemma PublishFinishes(mode: Mode, depth: nat, waits: Waits, at: At, e: F.Event<()>)
    requires Finishes(mode, depth, waits, at)
    ensures Finishes(mode, depth, Publish(waits, e), at)
    ensures GaveUp(Publish(waits, e).publishing) == GaveUp(waits.publishing)
  {
  }

  lemma HeldWith(mode: Mode, left: nat, spoiled: set<Cleanup>, waits: Waits, now: Waits, w: World)
    requires Held(mode, left, spoiled, waits, w)
    requires now.loose == waits.loose && GaveUp(now.creating) == GaveUp(waits.creating)
    requires GaveUp(now.publishing) == GaveUp(waits.publishing)
    ensures Held(mode, left, spoiled, now, w)
  {
  }

  lemma LaterStopKeeps(s: State, error: Option<Error>, why: Why)
    requires Inv(s) && s.halt.why.Some?
    ensures Inv(Stop(s, error, why))
  {
  }

  lemma FirstStopKeeps(s: State, error: Option<Error>, why: Why)
    requires Inv(s) && s.at.Awaiting() && s.halt.why.None?
    ensures Inv(Stop(s, error, why))
  {
    ToldKeeps(s.mode, |s.exits.registered|, s.waits, s.at);
    ToldIsTheSame(s.waits, s.at);
    FirstStopHalts(s.halt, s.waits, s.at, error, why);
  }

  lemma ToldIsTheSame(waits: Waits, at: At)
    ensures var told := TellCancelled(waits, at);
      && told.loose == waits.loose
      && GaveUp(told.creating) == GaveUp(waits.creating) && GaveUp(told.publishing) == GaveUp(waits.publishing)
      && (told.submitting.Some? <==> waits.submitting.Some?)
      && (told.submitting.Some? ==> told.submitting.value.calls == waits.submitting.value.calls)
  {
  }

  lemma FirstStopHalts(h: Halt, waits: Waits, at: At, error: Option<Error>, why: Why)
    requires Halted(h, waits, at) && at.Awaiting() && h.why.None?
    requires waits.submitting.Some? ==> (at == SubmitAt <==> !waits.submitting.value.Ended())
    requires waits.publishing.Some? ==> (at == PublishAt <==> !waits.publishing.value.Ended())
    requires at == GatherAt ==> waits.creating.Some? && F.Sound(waits.creating.value)
    ensures Halted(CancelMain(Decide(h, error, why)), TellCancelled(waits, at), at)
  {
  }

  /** Being told of a cancellation leaves a step as it was. */
  lemma ToldKeeps(mode: Mode, depth: nat, waits: Waits, at: At)
    requires Finishes(mode, depth, waits, at)
    ensures Finishes(mode, depth, TellCancelled(waits, at), at)
  {
  }

  /** The first stop after a prompt's interrupt. */
  lemma StopInCleanupKeeps(s: State, why: Why)
    requires Inv(s) && s.at == Unwinding && s.exits.stack != [] && s.halt.why.None?
    ensures Inv(Stop(s, None, why))
  {
  }

  lemma StopKeeps(s: State, error: Option<Error>, why: Why)
    requires Inv(s) && s.at != Begin
    requires s.at.Awaiting() || s.halt.why.Some? || (!Ending(s) && error.None?)
    ensures Inv(Stop(s, error, why))
  {
    if s.halt.why.Some? {
      LaterStopKeeps(s, error, why);
    } else if s.at == Unwinding {
      StopInCleanupKeeps(s, why);
    } else {
      FirstStopKeeps(s, error, why);
    }
  }

  function PlaceOfTask(mode: Mode, task: Task): nat {
    match task
    case Watcher => 2
    case Output => 6
    case Heartbeats => 5 + JobSteps(mode)
    case Monitor => 8 + JobSteps(mode)
  }

  /** With a background task to come about yet, or to stop, there is no interrupted prompt. */
  lemma TasksComeLater(s: State, task: Task)
    requires Inv(s) && s.at != Begin && task in s.w.tasks
    ensures s.at.Awaiting() || s.halt.why.Some?
  {
    if s.halt.passing == Some(KeyboardInterrupt) {
      var place := PlaceOfTask(s.mode, task);
      assert PlanAt(s.mode, "", place) == StopTask(task);
      assert Holds(s.w, PlanAt(s.mode, "", place));
      OnlyTheLock(s.exits.ran);
    }
  }

  lemma OnlyTheLock(ran: seq<Ran>)
    requires |ran| <= 1 && forall i :: 0 <= i < |ran| ==> ran[i].step == ReleaseLock
    ensures Spoiled(ran) <= {ReleaseLock}
  {
  }

  lemma EndTaskKeeps(s: State, task: Task)
    requires Inv(s)
    ensures Inv(s.(w := EndTask(s.w, task)))
  {
  }

  lemma MonitorTurnKeeps(s: State, state: JobState)
    requires Inv(s) && s.at != Begin
    ensures Inv(MonitorTurn(s, state))
  {
    if Monitor in s.w.tasks {
      TasksComeLater(s, Monitor);
      InspectsKeeps(s, state);
      var s := s.(job := Inspects(s.job, state));
      if state == Unknown {
        StopKeeps(s, Some(Blame(s.w.lost, StrangeState)), Because(Blame(s.w.lost, StrangeState)));
        EndTaskKeeps(Stop(s, Some(Blame(s.w.lost, StrangeState)), Because(Blame(s.w.lost, StrangeState))), Monitor);
      } else if state.Terminal() {
        StopKeeps(s, None, JobEnded(state));
        EndTaskKeeps(Stop(s, None, JobEnded(state)), Monitor);
      }
    }
  }

  lemma ControlAppearsKeeps(s: State)
    requires Inv(s) && UnderWay(s.waits.creating)
    ensures Inv(s.(w := s.w.(control := true)))
  {
  }

  lemma BlockAppearsKeeps(s: State)
    requires Inv(s) && UnderWay(s.waits.publishing)
    ensures Inv(s.(w := s.w.(block := Own)))
  {
  }

  lemma ListensKeeps(s: State)
    requires Inv(s)
    ensures Inv(s.(w := s.w.(stray := true)))
  {
  }

  lemma LoseKeeps(s: State)
    requires Inv(s)
    ensures Inv(s.(w := Lose(s.w)))
  {
  }

  // A cleanup step, part by part

  lemma CleanUpStack(mode: Mode, id: Option<JobId>, x: Exits, turn: Ran)
    requires Stacked(mode, id, x, Unwinding) && x.stack != [] && turn.step == x.stack[|x.stack| - 1]
    ensures turn.step == PlanAt(mode, IdOf(id), |x.stack| - 1)
    ensures Stacked(mode, id, x.(stack := x.stack[..|x.stack| - 1], ran := x.ran + [turn]), Unwinding)
  {
    hide PlanAt;
    var left := |x.stack| - 1;
    var stack, ran := x.stack[..left], x.ran + [turn];
    assert forall i :: 0 <= i < left ==> stack[i] == x.stack[i];
    assert forall i :: 0 <= i < |x.ran| ==> ran[i] == x.ran[i];
    assert left == |x.registered| - 1 - |x.ran|;
  }

  /** `more` is `spoiled`, and `step` if it went wrong. */
  predicate Spoils(spoiled: set<Cleanup>, more: set<Cleanup>, step: Cleanup, outcome: Outcome) {
    spoiled <= more && (outcome != Fine ==> step in more)
  }

  lemma SpoilsNext(ran: seq<Ran>, turn: Ran)
    ensures Spoils(Spoiled(ran), Spoiled(ran + [turn]), turn.step, turn.outcome)
  {
    SpoiledNext(ran, turn);
  }

  lemma UndoOnlyUndoes(w: World, step: Cleanup, other: Cleanup)
    ensures Holds(Undo(w, step), other) ==> Holds(w, other)
    ensures !Holds(Undo(w, step), step)
  {
    match step
    case StopTask(task) => assert Undo(w, step).tasks == w.tasks - {task};
    case _ =>
  }

  lemma EffectOnlyUndoes(w: World, step: Cleanup, outcome: Outcome, finished: bool, other: Cleanup)
    ensures Holds(Effect(w, step, outcome, finished), other) ==> Holds(w, other)
    ensures outcome == Fine || step == CloseShell ==> !Holds(Effect(w, step, outcome, finished), step)
  {
    var undone := if outcome == Fine then Undo(w, step) else w;
    if outcome == Fine {
      UndoOnlyUndoes(w, step, other);
      UndoOnlyUndoes(w, step, step);
    }
    UndoOnlyUndoes(undone, CloseShell, other);
    UndoOnlyUndoes(undone, CloseShell, step);
  }

  lemma PlanOfAnyJob(mode: Mode, id: JobId, i: nat)
    ensures PlanAt(mode, id, i) == PlanAt(mode, "", i) || PlanAt(mode, "", i).CancelJob?
  {
  }

  lemma CleanUpHeld(
    mode: Mode, id: JobId, left: nat, spoiled: set<Cleanup>, more: set<Cleanup>, waits: Waits, w: World,
    outcome: Outcome, finished: bool)
    requires 0 < left <= 9 + JobSteps(mode) && Held(mode, left, spoiled, waits, w)
    requires Spoils(spoiled, more, PlanAt(mode, id, left - 1), outcome)
    ensures Held(mode, left - 1, more, waits, Effect(w, PlanAt(mode, id, left - 1), outcome, finished))
  {
    hide PlanAt, Effect;
    var step := PlanAt(mode, id, left - 1);
    var after := Effect(w, step, outcome, finished);
    PlanOfAnyJob(mode, id, left - 1);
    EffectOnlyUndoes(w, step, outcome, finished, CloseShell);
    EffectOnlyUndoes(w, step, outcome, finished, StopTask(Output));
    forall i | left - 1 <= i < 9 + JobSteps(mode) && Holds(after, PlanAt(mode, "", i))
      ensures PlanAt(mode, "", i) in more || Excused(waits, PlanAt(mode, "", i))
    {
      EffectOnlyUndoes(w, step, outcome, finished, PlanAt(mode, "", i));
      EffectOnlyUndoes(w, step, outcome, finished, step);
    }
  }

  /** `after` has no more than `w`, and what `step` does not undo. */
  predicate Spares(w: World, step: Cleanup, after: World) {
    && after.lost == w.lost && after.stray == w.stray
    && (step != ReleaseLock ==> after.lock == w.lock)
    && (step != CloseLogin ==> after.login == w.login)
    && (step != CloseLogin && step != ClosePort ==> after.port == w.port)
    && (step != RemoveControl ==> after.control == w.control)
    && (after.login ==> w.login) && (after.port ==> w.port) && (after.sftp ==> w.sftp)
  }

  lemma UndoLeaves(w: World, step: Cleanup)
    ensures Spares(w, step, Undo(w, step))
  {
    match step
    case _ =>
  }

  lemma EffectLeaves(w: World, step: Cleanup, outcome: Outcome, finished: bool)
    ensures Spares(w, step, Effect(w, step, outcome, finished))
  {
    var undone := if outcome == Fine then Undo(w, step) else w;
    UndoLeaves(w, step);
    assert Spares(w, step, undone);
    assert Spares(w, step, undone.(shell := false));
  }

  lemma PlanPlaces(mode: Mode, id: JobId, i: nat)
    ensures var step := PlanAt(mode, id, i);
      && (i >= 1 ==> step != ReleaseLock)
      && (i >= 2 ==> step != CloseLogin)
      && (i >= 7 + JobSteps(mode) ==> step != ClosePort)
  {
  }

  lemma CleanUpLasting(mode: Mode, id: JobId, depth: nat, left: nat, w: World, outcome: Outcome, finished: bool)
    requires 0 < left <= depth <= 9 + JobSteps(mode) && Lasting(mode, depth, left, w)
    ensures Lasting(mode, depth, left - 1, Effect(w, PlanAt(mode, id, left - 1), outcome, finished))
  {
    var step := PlanAt(mode, id, left - 1);
    PlanPlaces(mode, id, left - 1);
    EffectLeaves(w, step, outcome, finished);
  }

  lemma CleanUpJob(mode: Mode, job: JobRecord, submitting: Option<F.Finish<JobId>>, left: nat)
    requires 0 < left <= 9 + JobSteps(mode) && Jobs(mode, job, submitting, left)
    requires job.id.None? ==> left <= 5
    ensures var step := PlanAt(mode, IdOf(job.id), left - 1);
      Jobs(mode, if step.CancelJob? then Bkill(job, step.id) else job, submitting, left - 1)
  {
  }

  lemma CleanUpSettled(step: Cleanup, spoiled: set<Cleanup>, more: set<Cleanup>, job: JobRecord)
    requires Settled(job, spoiled) && spoiled <= more
    ensures Settled(if step.CancelJob? then Bkill(job, step.id) else job, more)
  {
  }

  lemma CleansUpKeepsWorld(s: State, outcome: Outcome)
    requires s.at == Unwinding && s.exits.stack != []
    requires Stacked(s.mode, s.job.id, s.exits, s.at)
    requires Held(s.mode, |s.exits.stack|, Spoiled(s.exits.ran), s.waits, s.w)
    requires Lasting(s.mode, |s.exits.registered|, |s.exits.stack|, s.w)
    ensures var t := CleansUp(s, outcome);
      var left, spoiled := |t.exits.stack|, Spoiled(t.exits.ran);
      && Held(t.mode, left, spoiled, t.waits, t.w)
      && Lasting(t.mode, |t.exits.registered|, left, t.w)
  {
    hide Stacked, Held, Lasting, Effect, PlanAt, Spoiled, Spoils;
    var x, id, left := s.exits, IdOf(s.job.id), |s.exits.stack|;
    var turn := TurnOf(s.halt, x.stack[left - 1], outcome);
    SpoilsNext(x.ran, turn);
    CleansUpKeepsStack(s, outcome);
    CleanUpHeld(s.mode, id, left, Spoiled(x.ran), Spoiled(x.ran + [turn]), s.waits, s.w, outcome, s.job.finished);
    CleanUpLasting(s.mode, id, |x.registered|, left, s.w, outcome, s.job.finished);
  }

  lemma CleansUpKeepsStack(s: State, outcome: Outcome)
    requires s.at == Unwinding && s.exits.stack != []
    requires Stacked(s.mode, s.job.id, s.exits, s.at)
    ensures var t := CleansUp(s, outcome);
      Stacked(t.mode, s.job.id, t.exits, t.at) && t.job.id == s.job.id
      && s.exits.stack[|s.exits.stack| - 1] == PlanAt(s.mode, IdOf(s.job.id), |s.exits.stack| - 1)
      && |s.exits.stack| <= |s.exits.registered| <= 9 + JobSteps(s.mode)
      && (s.job.id.None? ==> |s.exits.stack| <= 5)
  {
    hide PlanAt;
    CleanUpStack(s.mode, s.job.id, s.exits, TurnOf(s.halt, s.exits.stack[|s.exits.stack| - 1], outcome));
  }

  lemma CleansUpKeepsJob(s: State, outcome: Outcome)
    requires s.at == Unwinding && s.exits.stack != []
    requires Stacked(s.mode, s.job.id, s.exits, s.at)
    requires Jobs(s.mode, s.job, s.waits.submitting, |s.exits.stack|)
    requires Settled(s.job, Spoiled(s.exits.ran))
    ensures var t := CleansUp(s, outcome);
      && Jobs(t.mode, t.job, t.waits.submitting, |t.exits.stack|)
      && Settled(t.job, Spoiled(t.exits.ran))
  {
    hide Stacked, Jobs, Settled, PlanAt, Spoiled;
    var x, left := s.exits, |s.exits.stack|;
    var turn := TurnOf(s.halt, x.stack[left - 1], outcome);
    SpoilsNext(x.ran, turn);
    CleansUpKeepsStack(s, outcome);
    CleanUpJob(s.mode, s.job, s.waits.submitting, left);
    CleanUpSettled(turn.step, Spoiled(x.ran), Spoiled(x.ran + [turn]), s.job);
  }

  lemma CleansUpKeepsHalt(s: State, outcome: Outcome)
    requires s.at == Unwinding && s.exits.stack != []
    requires Stacked(s.mode, s.job.id, s.exits, s.at)
    requires Halted(s.halt, s.waits, s.at) && Passed(s.halt, s.exits, s.at)
    ensures var t := CleansUp(s, outcome); Halted(t.halt, t.waits, t.at) && Passed(t.halt, t.exits, t.at)
  {
  }

  lemma CleansUpKeeps(s: State, outcome: Outcome)
    requires Inv(s) && s.at == Unwinding && s.exits.stack != []
    ensures Inv(CleansUp(s, outcome))
  {
    hide Stacked, Halted, Passed, Jobs, Held, Lasting, Settled;
    CleansUpKeepsHalt(s, outcome);
    CleansUpKeepsWorld(s, outcome);
    CleansUpKeepsStack(s, outcome);
    CleansUpKeepsJob(s, outcome);
  }

  lemma LeavesKeeps(s: State)
    requires Inv(s) && s.at == Unwinding && s.exits.stack == []
    ensures Inv(Leaves(s))
  {
  }

  lemma BlockGoesKeeps(s: State, other: HostBlock)
    requires Inv(s) && other != Own
    ensures Inv(s.(w := s.w.(block := other)))
  {
  }

  lemma TaskFailureKeeps(s: State, task: Task, error: Error)
    requires Inv(s) && s.at != Begin
    ensures Inv(TaskFailure(s, task, error))
  {
    if task in s.w.tasks {
      TasksComeLater(s, task);
      var blamed := Blame(s.w.lost, error);
      StopKeeps(s, Some(blamed), Because(blamed));
      EndTaskKeeps(Stop(s, Some(blamed), Because(blamed)), task);
    }
  }

  lemma WatcherTurnKeeps(s: State)
    requires Inv(s) && s.at != Begin
    ensures Inv(WatcherTurn(s))
  {
    if Watcher in s.w.tasks && s.w.lost {
      TasksComeLater(s, Watcher);
      StopKeeps(s, Some(ConnectionLost), Because(ConnectionLost));
      EndTaskKeeps(Stop(s, Some(ConnectionLost), Because(ConnectionLost)), Watcher);
    }
  }

  /** From one wait of the same stage to the next. */
  lemma MovesOnKeeps(s: State, at: At)
    requires Inv(s) && !s.halt.pending
    requires (s.at, at) in {(PrepareAt, SftpAt), (CommandAt, JobAt), (EndpointAt, ForwardAt)}
    ensures Inv(s.(at := at))
  {
  }

  lemma ProceedsKeeps(s: State)
    requires Inv(s) && !s.halt.pending
    ensures Inv(Proceeds(s))
  {
    hide Inv;
    match s.at
    case ConnectAt => ConnectsKeeps(s);
    case SftpAt => OpensSftpKeeps(s);
    case LeaseAt => StartsSubmissionKeeps(s);
    case PortAt => LearnsPortKeeps(s);
    case ForwardAt => ForwardsKeeps(s);
    case PrepareAt => MovesOnKeeps(s, SftpAt);
    case CommandAt => MovesOnKeeps(s, JobAt);
    case EndpointAt => MovesOnKeeps(s, ForwardAt);
    case _ =>
  }

  lemma MainNextKeeps(s: State, e: Event)
    requires Inv(s)
    ensures Inv(MainNext(s, e))
  {
    hide Inv;
    if e.Turn? {
      TurnsKeeps(s);
    } else if e.Polled? {
      if Polling(s) && !s.halt.pending {
        PollsKeeps(s, e.state, e.hosted);
      }
    } else {
      DirectNextKeeps(s, e);
    }
  }

  lemma DirectNextKeeps(s: State, e: Event)
    requires Inv(s) && !e.Turn? && !e.Polled?
    ensures Inv(MainNext(s, e))
  {
    hide Inv;
    match e
    case Proceed => if !s.halt.pending { ProceedsKeeps(s); }
    case ShellOpened(id) =>
      if s.at == SubmitAt && s.mode == Interactive && !s.halt.pending { OpensShellKeeps(s, id); }
    case PromptInterrupted => if AtPrompt(s) { InterruptsKeeps(s); }
    case Fail(code) => if MayFail(s) { StepFailsKeeps(s, code); }
    case Deliver => if Direct(s) && s.halt.pending { UnwindKeeps(s); }
    case _ =>
  }

  lemma AroundNextKeeps(s: State, e: Event)
    requires Inv(s)
    ensures Inv(AroundNext(s, e))
  {
    hide Inv;
    if e.SiblingEnds? {
      WaitsKeep(s, e.first, e.made);
    } else if e.Creation? {
      CreateKeeps(s, e.creation);
    } else if e.Submission? {
      SubmitKeeps(s, e.submission);
    } else if e.Publication? {
      PublishKeeps(s, e.publication);
    } else {
      WorldNextKeeps(s, e);
    }
  }

  lemma WorldNextKeeps(s: State, e: Event)
    requires Inv(s) && !(e.SiblingEnds? || e.Creation? || e.Submission? || e.Publication?)
    ensures Inv(AroundNext(s, e))
  {
    hide Inv;
    match e
    case ControlAppears => if UnderWay(s.waits.creating) { ControlAppearsKeeps(s); }
    case BlockAppears => if UnderWay(s.waits.publishing) { BlockAppearsKeeps(s); }
    case Listens => ListensKeeps(s);
    case LoseLogin => LoseKeeps(s);
    case BlockGoes => BlockGoesKeeps(s, NoBlock);
    case _ =>
  }

  lemma TaskNextKeeps(s: State, e: Event)
    requires Inv(s) && s.at != Begin
    ensures Inv(TaskNext(s, e))
  {
    hide Inv;
    match e
    case Interrupt => if !Ending(s) { StopKeeps(s, None, CtrlC); }
    case WatcherSees => WatcherTurnKeeps(s);
    case TaskFails(task, code) => TaskFailureKeeps(s, task, Failure(code));
    case TaskEnds(task) => EndTaskKeeps(s, task);
    case MonitorPolled(state) => MonitorTurnKeeps(s, state);
    case _ =>
  }

  lemma NextKeeps(s: State, e: Event)
    requires Inv(s)
    ensures Inv(Next(s, e))
  {
    hide Inv;
    if e.OldBlock? {
      BlockGoesKeeps(s, Stale);
    } else if s.at == Begin {
      if e.TakeLock? { TakesLockKeeps(s, e.free); }
    } else if OfMain(e) {
      MainNextKeeps(s, e);
    } else if e.CleanUp? || e.Exit? {
      if s.at == Unwinding && s.exits.stack == [] && e.Exit? {
        LeavesKeeps(s);
      } else if s.at == Unwinding && s.exits.stack != [] && e.CleanUp? {
        CleansUpKeeps(s, e.outcome);
      }
    } else if OfTasks(e) {
      TaskNextKeeps(s, e);
    } else {
      AroundNextKeeps(s, e);
    }
  }

  /** The invariants hold after every run. */
  lemma {:induction false} RunsKeep(mode: Mode, es: seq<Event>)
    ensures Inv(After(mode, es))
  {
    if es == [] {
      InitInv(mode);
    } else {
      RunsKeep(mode, es[..|es| - 1]);
      NextKeeps(After(mode, es[..|es| - 1]), es[|es| - 1]);
    }
  }
}
