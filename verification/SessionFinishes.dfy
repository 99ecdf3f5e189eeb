/** The three steps that a session waits for in `_finish` go as `Finishing` says, by the events that concern them. */
module SessionFinishes {
  import opened Prelude
  import F = Finishing
  import opened Session
  import opened SessionInvariants
  import opened SessionStops
  import opened SessionWaits

  /** The first call of `_stop`, by anyone but the main task, which it cancels. */
  predicate CancelsMain(s: State, e: Event) {
    s.at != Begin && OfTasks(e) && s.halt.why.None? && Reason(s, e).Some?
  }

  // What each event means to a step under way: its own ends, the main task's turn, and its cancellation

  function ToSubmission(s: State, e: Event): seq<F.Event<JobId>> {
    if e.Submission? then if e.submission.Cancel? || e.submission.Resume? then [] else [e.submission]
    else if s.at != SubmitAt then []
    else if e.Turn? then [F.Resume]
    else if CancelsMain(s, e) then [F.Cancel]
    else []
  }

  function ToPublication(s: State, e: Event): seq<F.Event<()>> {
    if e.Publication? then if e.publication.Cancel? || e.publication.Resume? then [] else [e.publication]
    else if s.at != PublishAt then []
    else if e.Turn? then [F.Resume]
    else if CancelsMain(s, e) then [F.Cancel]
    else []
  }

  /** The `gather`'s child has turns of its own, and is cancelled with its siblings, unless the `gather` is over. */
  function ToCreation(s: State, e: Event): seq<F.Event<()>> {
    if e.Creation? then if e.creation.Cancel? then [] else [e.creation]
    else if s.at == GatherAt && CancelsMain(s, e) && !GatherOver(s.waits) then [F.Cancel]
    else []
  }

  function Advanced<T>(f: F.Finish<T>, more: seq<F.Event<T>>): F.Finish<T>
    requires |more| <= 1
  {
    if more == [] then f else F.Advance(f, more[0])
  }

  function SubmissionHistory(mode: Mode, es: seq<Event>): seq<F.Event<JobId>> {
    if es == [] || After(mode, es[..|es| - 1]).waits.submitting.None? then []
    else
      SubmissionHistory(mode, es[..|es| - 1])
      + ToSubmission(After(mode, es[..|es| - 1]), es[|es| - 1])
  }

  function PublicationHistory(mode: Mode, es: seq<Event>): seq<F.Event<()>> {
    if es == [] || After(mode, es[..|es| - 1]).waits.publishing.None? then []
    else
      PublicationHistory(mode, es[..|es| - 1])
      + ToPublication(After(mode, es[..|es| - 1]), es[|es| - 1])
  }

  function CreationHistory(mode: Mode, es: seq<Event>): seq<F.Event<()>> {
    if es == [] || After(mode, es[..|es| - 1]).waits.creating.None? then []
    else
      CreationHistory(mode, es[..|es| - 1])
      + ToCreation(After(mode, es[..|es| - 1]), es[|es| - 1])
  }

  lemma RunMore<T>(before: seq<F.Event<T>>, more: seq<F.Event<T>>)
    requires |more| <= 1
    ensures F.Run(before + more) == Advanced(F.Run(before), more)
  {
    if more == [] {
      assert before + more == before;
    } else {
      assert (before + more)[..|before|] == before;
    }
  }

  lemma RunNone<T>()
    ensures F.Run<T>([]) == F.Start()
  {
  }

  // How the waits change

  /** One event's change of the waits. */
  predicate WaitsGoOn(s: State, e: Event, after: Waits) {
    && (if s.waits.submitting.Some?
        then after.submitting == Some(Advanced(s.waits.submitting.value, ToSubmission(s, e)))
        else after.submitting.Some? ==> after.submitting == Some(F.Start()))
    && (if s.waits.publishing.Some?
        then after.publishing == Some(Advanced(s.waits.publishing.value, ToPublication(s, e)))
        else after.publishing.Some? ==> after.publishing == Some(F.Start()))
    && (if s.waits.creating.Some?
        then after.creating == Some(Advanced(s.waits.creating.value, ToCreation(s, e)))
        else after.creating.Some? ==> after.creating == Some(F.Start()))
  }

  predicate BeforeSubmission(at: At) {
    at in {Begin, ConnectAt, PrepareAt, SftpAt, GatherAt, LeaseAt}
  }

  predicate NotSubmitted(s: State) {
    BeforeSubmission(s.at) ==> s.waits.submitting.None?
  }

  lemma MainSubmits(s: State, e: Event)
    requires s.waits.submitting.None? && OfMain(e)
    ensures MainNext(s, e).waits.submitting.Some? ==> MainNext(s, e).at == SubmitAt
  {
  }

  lemma OthersSubmitNothing(s: State, e: Event)
    requires s.waits.submitting.None? && !OfMain(e) && s.at != Begin && !e.OldBlock?
    ensures OtherNext(s, e).waits.submitting.None?
  {
    if OfTasks(e) {
      TasksAreOthers(s, e);
      TasksTell(s, e);
    }
  }

  lemma SubmissionBegins(s: State, e: Event)
    requires s.waits.submitting.None?
    ensures Next(s, e).waits.submitting.Some? ==> Next(s, e).at == SubmitAt
  {
    hide MainNext, OtherNext;
    if e.OldBlock? || s.at == Begin {
    } else if OfMain(e) {
      MainSubmits(s, e);
    } else {
      OthersSubmitNothing(s, e);
    }
  }

  lemma NotBackTo(mode: Mode, at: At)
    ensures BeforeSubmission(Following(mode, at)) ==> BeforeSubmission(at)
  {
  }

  lemma {:induction false} NoneBeforeSubmission(mode: Mode, es: seq<Event>)
    ensures NotSubmitted(After(mode, es))
  {
    if es != [] {
      var s, e := After(mode, es[..|es| - 1]), es[|es| - 1];
      NoneBeforeSubmission(mode, es[..|es| - 1]);
      RunsKeep(mode, es[..|es| - 1]);
      NextGoesOn(s, e);
      NotBackTo(s.mode, s.at);
      hide Next, Inv, Following;
      if s.waits.submitting.None? {
        SubmissionBegins(s, e);
      }
    }
  }

  /** No step is begun twice. */
  lemma BegunOnce(s: State)
    requires Inv(s) && NotSubmitted(s)
    ensures s.at == SftpAt ==> s.waits.creating.None?
    ensures s.at == LeaseAt ==> s.waits.submitting.None?
    ensures s.at == ForwardAt ==> s.waits.publishing.None?
    ensures s.at == Begin ==> s.waits.creating.None? && s.waits.submitting.None? && s.waits.publishing.None?
  {
  }

  lemma ProceedsTo(s: State)
    ensures Proceeds(s).waits ==
      match s.at
      case SftpAt => s.waits.(creating := Some(F.Start()))
      case LeaseAt => s.waits.(submitting := if s.mode == Batch then Some(F.Start()) else None)
      case ForwardAt => s.waits.(publishing := Some(F.Start()))
      case _ => s.waits
  {
  }

  lemma ProceedsWaits(s: State)
    requires Inv(s) && NotSubmitted(s)
    ensures WaitsGoOn(s, Proceed, Proceeds(s).waits)
  {
    BegunOnce(s);
    ProceedsTo(s);
    assert ToSubmission(s, Proceed) == [] && ToPublication(s, Proceed) == [] && ToCreation(s, Proceed) == [];
    hide Inv, Proceeds, NotSubmitted, ToSubmission, ToPublication, ToCreation, F.Advance;
  }

  lemma TurnsWait(s: State)
    ensures WaitsGoOn(s, Turn, Turns(s).waits)
  {
    if s.at == GatherAt {
      assert GatherTurn(s).waits == s.waits || GatherTurn(s).waits.(loose := s.waits.loose) == s.waits;
    } else if s.at == SubmitAt && s.waits.submitting.Some? {
      assert SubmitTurn(s).waits == s.waits.(submitting := Some(F.Resumed(s.waits.submitting.value)));
    } else if s.at == PublishAt && s.waits.publishing.Some? {
      assert PublishTurn(s).waits == s.waits.(publishing := Some(F.Resumed(s.waits.publishing.value)));
    }
  }

  lemma MainWaits(s: State, e: Event)
    requires Inv(s) && NotSubmitted(s) && OfMain(e) && s.at != Begin
    ensures WaitsGoOn(s, e, MainNext(s, e).waits)
  {
    hide Inv, Proceeds, Turns;
    match e
    case Proceed => ProceedsWaits(s);
    case Turn => TurnsWait(s);
    case Polled(state, hosted) => assert Polls(s, state, hosted).waits == s.waits;
    case _ =>
  }

  function StopWaits(s: State): Waits {
    if s.halt.why.Some? then s.waits else TellCancelled(s.waits, s.at)
  }

  lemma StopTells(s: State, error: Option<Error>, why: Why)
    ensures Stop(s, error, why).waits == StopWaits(s)
  {
  }

  lemma FailureTells(s: State, task: Task, error: Error)
    ensures TaskFailure(s, task, error).waits == if task in s.w.tasks then StopWaits(s) else s.waits
  {
    hide Stop, StopWaits;
    var blamed := Blame(s.w.lost, error);
    StopTells(s, Some(blamed), Because(blamed));
  }

  lemma MonitorTells(s: State, state: JobState)
    ensures MonitorTurn(s, state).waits == if AnswerStops(s, state).Some? then StopWaits(s) else s.waits
  {
    hide Stop, TaskFailure;
    var inspected := s.(job := Inspects(s.job, state));
    FailureTells(inspected, Monitor, StrangeState);
    StopTells(inspected, None, JobEnded(state));
  }

  lemma TasksTell(s: State, e: Event)
    requires OfTasks(e) && s.at != Begin
    ensures TaskNext(s, e).waits == if Reason(s, e).Some? then StopWaits(s) else s.waits
  {
    hide Stop, TaskFailure, MonitorTurn, AnswerStops, StopWaits;
    match e
    case Interrupt => StopTells(s, None, CtrlC);
    case WatcherSees => StopTells(s, Some(ConnectionLost), Because(ConnectionLost));
    case TaskFails(task, code) => FailureTells(s, task, Failure(code));
    case MonitorPolled(state) => MonitorTells(s, state);
    case TaskEnds(_) =>
  }

  lemma TasksWait(s: State, e: Event)
    requires OfTasks(e) && s.at != Begin
    ensures WaitsGoOn(s, e, TaskNext(s, e).waits)
  {
    TasksTell(s, e);
    hide TaskNext, Reason, F.Advance;
  }

  lemma OthersWait(s: State, e: Event)
    requires s.at != Begin && !OfMain(e) && !OfTasks(e) && !e.OldBlock?
    ensures WaitsGoOn(s, e, OtherNext(s, e).waits)
  {
    hide F.Advance;
  }

  lemma NextWaits(s: State, e: Event)
    requires Inv(s) && NotSubmitted(s)
    ensures WaitsGoOn(s, e, Next(s, e).waits)
  {
    BegunOnce(s);
    hide Inv, MainNext, TaskNext, OtherNext, WaitsGoOn;
    if e.OldBlock? || s.at == Begin {
      AtFirst(s, e);
    } else if OfMain(e) {
      MainWaits(s, e);
    } else if OfTasks(e) {
      TasksWait(s, e);
      assert OtherNext(s, e) == TaskNext(s, e) by { TasksAreOthers(s, e); }
    } else {
      OthersWait(s, e);
    }
  }

  lemma TasksAreOthers(s: State, e: Event)
    requires OfTasks(e)
    ensures OtherNext(s, e) == TaskNext(s, e)
  {
  }

  lemma AtFirst(s: State, e: Event)
    requires e.OldBlock? || s.at == Begin
    requires s.at == Begin ==> s.waits.creating.None? && s.waits.submitting.None? && s.waits.publishing.None?
    ensures WaitsGoOn(s, e, Next(s, e).waits)
  {
  }

  // So

  lemma {:induction false} NotBegun(mode: Mode, es: seq<Event>)
    ensures var waits := After(mode, es).waits;
      && (waits.submitting.None? ==> SubmissionHistory(mode, es) == [])
      && (waits.publishing.None? ==> PublicationHistory(mode, es) == [])
      && (waits.creating.None? ==> CreationHistory(mode, es) == [])
  {
    if es != [] {
      RunsKeep(mode, es[..|es| - 1]);
      NoneBeforeSubmission(mode, es[..|es| - 1]);
      NextWaits(After(mode, es[..|es| - 1]), es[|es| - 1]);
      hide Next, Inv, ToSubmission, ToPublication, ToCreation;
    }
  }

  /**
   In every run, the submission's wait is `_finish`, for the ends of the submission, the main
   task's turns there, and the first stop that cancels it; so that what is proved of `_finish` holds of it.
   */
  lemma {:induction false} TheSubmissionIsFinished(mode: Mode, es: seq<Event>)
    ensures var f := After(mode, es).waits.submitting; f.Some? ==> f == Some(F.Run(SubmissionHistory(mode, es)))
  {
    if es != [] {
      hide Next, Inv, ToSubmission, ToPublication, ToCreation, F.Advance, F.Run;
      var before, e := es[..|es| - 1], es[|es| - 1];
      TheSubmissionIsFinished(mode, before);
      RunsKeep(mode, before);
      NoneBeforeSubmission(mode, before);
      NextWaits(After(mode, before), e);
      RunNone<JobId>();
      RunMore(SubmissionHistory(mode, before), ToSubmission(After(mode, before), e));
    }
  }

  /** And so is the publication's. */
  lemma {:induction false} ThePublicationIsFinished(mode: Mode, es: seq<Event>)
    ensures var f := After(mode, es).waits.publishing; f.Some? ==> f == Some(F.Run(PublicationHistory(mode, es)))
  {
    if es != [] {
      hide Next, Inv, ToSubmission, ToPublication, ToCreation, F.Advance, F.Run;
      var before, e := es[..|es| - 1], es[|es| - 1];
      ThePublicationIsFinished(mode, before);
      RunsKeep(mode, before);
      NoneBeforeSubmission(mode, before);
      NextWaits(After(mode, before), e);
      RunNone<()>();
      RunMore(PublicationHistory(mode, before), ToPublication(After(mode, before), e));
    }
  }

  /** And that for the control directory's creation, but for the turns, which are its own in the `gather`. */
  lemma {:induction false} TheCreationIsFinished(mode: Mode, es: seq<Event>)
    ensures var f := After(mode, es).waits.creating; f.Some? ==> f == Some(F.Run(CreationHistory(mode, es)))
  {
    if es != [] {
      hide Next, Inv, ToSubmission, ToPublication, ToCreation, F.Advance, F.Run;
      var before, e := es[..|es| - 1], es[|es| - 1];
      TheCreationIsFinished(mode, before);
      RunsKeep(mode, before);
      NoneBeforeSubmission(mode, before);
      NextWaits(After(mode, before), e);
      RunNone<()>();
      RunMore(CreationHistory(mode, before), ToCreation(After(mode, before), e));
    }
  }
}
