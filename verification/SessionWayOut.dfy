/** That a stopping session gets to its end, whatever happens around it. */
module SessionWayOut {
  import opened Prelude
  import F = Finishing
  import opened Session
  import opened SessionInvariants
  import opened SessionResults

  /** Turns, and timeouts, that take a stopping main task to the cleanup. */
  function ToCleanup(s: State): (events: seq<Event>)
    ensures |events| <= 4
  {
    if s.at == GatherAt then
      [Creation(F.Resume), Creation(F.TimeUp), Creation(F.Resume), Turn]
    else if s.at == SubmitAt && s.mode == Batch then [Turn, Submission(F.TimeUp), Turn]
    else if s.at == PublishAt then [Turn, Publication(F.TimeUp), Turn]
    else if s.at.Awaiting() then [Deliver]
    else []
  }

  /** After `lead`, there are `steps` cleanup steps to end, and then `run`. */
  function Way(lead: seq<Event>, steps: nat): seq<Event> {
    lead + seq(steps, _ => CleanUp(Fine)) + [Exit]
  }

  /** What leads to the end: one step more than are registered, as a submission may bring one along. */
  function WayOut(s: State): seq<Event> {
    Way(ToCleanup(s), |s.exits.stack| + 1)
  }

  /** However a cleanup step goes, it is over. */
  predicate Fulfils(e: Event, wanted: Event) {
    e == wanted || (e.CleanUp? && wanted.CleanUp?)
  }

  /** The events wanted are among `es`, in that order. */
  predicate Contains(es: seq<Event>, wanted: seq<Event>)
    decreases |es|
  {
    || wanted == []
    || (es != [] && Contains(es[1..], if Fulfils(es[0], wanted[0]) then wanted[1..] else wanted))
  }

  /** On the way there. */
  ghost predicate OnTheWay(s: State, lead: seq<Event>, steps: nat) {
    && Inv(s)
    && (s.at == Unwinding ==> |s.exits.stack| <= steps)
    && (s.at.Awaiting() ==> s.halt.why.Some? && lead == ToCleanup(s) && |s.exits.stack| < steps)
    && s.at != Begin
  }

  function StageOf<T>(f: F.Finish<T>): nat {
    if f.at != F.Waiting then 0 else if f.timeUp then 2 else 1
  }

  /** How many of the turns and timeouts the main task has behind it, or does not need. */
  function Stage(waits: Waits, at: At): nat {
    match at
    case GatherAt => if GatherOver(waits) then 3 else if waits.creating.Some? then StageOf(waits.creating.value) else 0
    case SubmitAt => if waits.submitting.Some? then StageOf(waits.submitting.value) else 0
    case PublishAt => if waits.publishing.Some? then StageOf(waits.publishing.value) else 0
    case _ => 0
  }

  function Progress(s: State, lead: seq<Event>, steps: nat): int {
    if s.at == Ended then |lead| + steps + 1
    else if s.at == Unwinding then |lead| + steps - |s.exits.stack|
    else Stage(s.waits, s.at)
  }

  lemma StageIsBefore(s: State, lead: seq<Event>, steps: nat)
    requires OnTheWay(s, lead, steps) && s.at.Awaiting()
    ensures Stage(s.waits, s.at) < |lead|
  {
  }

  // Nothing takes it back

  predicate NoLess(s: State, t: State) {
    t.at == s.at ==> Stage(s.waits, s.at) <= Stage(t.waits, t.at)
  }

  lemma AdvanceStage<T>(f: F.Finish<T>, e: F.Event<T>)
    requires !F.Advance(f, e).Ended()
    ensures StageOf(f) <= StageOf(F.Advance(f, e))
  {
  }

  lemma CreateStage(waits: Waits, e: F.Event<()>)
    ensures Stage(waits, GatherAt) <= Stage(Create(waits, e), GatherAt)
  {
    if waits.creating.Some? && !e.Cancel? && !F.Advance(waits.creating.value, e).Ended() {
      AdvanceStage(waits.creating.value, e);
    }
  }

  lemma SiblingStage(waits: Waits, first: bool, made: bool)
    ensures Stage(waits, GatherAt) <= Stage(EndSibling(waits, first, made), GatherAt)
  {
  }

  lemma SubmitStage(waits: Waits, e: F.Event<JobId>)
    requires waits.submitting.Some? && !waits.submitting.value.Ended()
    ensures Stage(waits, SubmitAt) <= Stage(Submit(waits, e), SubmitAt)
  {
    if !e.Cancel? && !e.Resume? {
      AdvanceStage(waits.submitting.value, e);
    }
  }

  lemma PublishStage(waits: Waits, e: F.Event<()>)
    requires waits.publishing.Some? && !waits.publishing.value.Ended()
    ensures Stage(waits, PublishAt) <= Stage(Publish(waits, e), PublishAt)
  {
    if !e.Cancel? && !e.Resume? {
      AdvanceStage(waits.publishing.value, e);
    }
  }

  lemma AroundStage(s: State, e: Event)
    requires Inv(s) && s.at.Awaiting()
    ensures AroundNext(s, e).at == s.at && NoLess(s, AroundNext(s, e))
  {
    if e.SiblingEnds? {
      SiblingStage(s.waits, e.first, e.made);
    } else if e.Creation? {
      CreateStage(s.waits, e.creation);
    } else if e.Submission? && s.at == SubmitAt && s.waits.submitting.Some? {
      SubmitStage(s.waits, e.submission);
    } else if e.Publication? && s.at == PublishAt {
      PublishStage(s.waits, e.publication);
    }
  }

  lemma TaskStage(s: State, e: Event)
    requires s.halt.why.Some?
    ensures TaskNext(s, e).waits == s.waits
  {
  }

  lemma TurnStage(s: State)
    requires Inv(s) && s.halt.why.Some?
    ensures NoLess(s, Turns(s))
  {
    if s.at == SubmitAt && s.waits.submitting.Some? {
      var f := s.waits.submitting.value;
      if !F.Resumed(f).Ended() {
        AdvanceStage(f, F.Resume);
      }
    } else if s.at == PublishAt && s.waits.publishing.Some? {
      var f := s.waits.publishing.value;
      if !F.Resumed(f).Ended() {
        AdvanceStage(f, F.Resume);
      }
    }
  }

  lemma MainStage(s: State, e: Event)
    requires Inv(s) && s.at.Awaiting() && s.halt.why.Some? && OfMain(e)
    ensures NoLess(s, MainNext(s, e))
  {
    if e.Turn? {
      TurnStage(s);
    } else if s.at == GatherAt || s.at == SubmitAt || s.at == PublishAt {
      OtherTurns(s, e);
    }
  }

  lemma OtherTurns(s: State, e: Event)
    requires OfMain(e) && !e.Turn? && (s.at == GatherAt || s.at == SubmitAt || s.at == PublishAt)
    ensures MainNext(s, e).at == s.at ==> MainNext(s, e).waits == s.waits
  {
  }

  lemma NextStage(s: State, e: Event)
    requires Inv(s) && s.at.Awaiting() && s.halt.why.Some?
    ensures NoLess(s, Next(s, e))
  {
    hide Inv;
    if e.OldBlock? {
    } else if OfMain(e) {
      MainStage(s, e);
    } else if e.CleanUp? || e.Exit? {
    } else if OfTasks(e) {
      TaskStage(s, e);
    } else {
      AroundStage(s, e);
    }
  }

  // What it waits for brings it on

  predicate More(s: State, t: State) {
    t.at == Unwinding || (t.at == s.at && Stage(s.waits, s.at) < Stage(t.waits, t.at))
  }

  lemma GatherOn(s: State)
    requires Inv(s) && s.at == GatherAt && s.halt.why.Some?
    ensures More(s, Next(s, ToCleanup(s)[Stage(s.waits, s.at)]))
  {
  }

  lemma SubmissionOn(s: State)
    requires Inv(s) && s.at == SubmitAt && s.mode == Batch && s.halt.why.Some?
    ensures More(s, Next(s, ToCleanup(s)[Stage(s.waits, s.at)]))
  {
  }

  lemma PublicationOn(s: State)
    requires Inv(s) && s.at == PublishAt && s.halt.why.Some?
    ensures More(s, Next(s, ToCleanup(s)[Stage(s.waits, s.at)]))
  {
  }

  lemma ComesOn(s: State)
    requires Inv(s) && s.at.Awaiting() && s.halt.why.Some?
    ensures Stage(s.waits, s.at) < |ToCleanup(s)| && More(s, Next(s, ToCleanup(s)[Stage(s.waits, s.at)]))
  {
    if s.at == GatherAt {
      GatherOn(s);
    } else if s.at == SubmitAt && s.mode == Batch {
      SubmissionOn(s);
    } else if s.at == PublishAt {
      PublicationOn(s);
    } else {
      Delivered(s);
    }
  }

  lemma Delivered(s: State)
    requires Inv(s) && Direct(s) && s.halt.why.Some?
    ensures Stage(s.waits, s.at) == 0 && Next(s, Deliver).at == Unwinding
  {
  }

  // In the cleanup

  /** The main task is over, or has a step less to end than before. */
  lemma CleanupStage(s: State, e: Event)
    requires CleaningUp(s.at)
    ensures var t := Next(s, e);
      && CleaningUp(t.at) && (s.at == Ended ==> t.at == Ended) && |t.exits.stack| <= |s.exits.stack|
      && (s.at == Unwinding && e.CleanUp? && s.exits.stack != [] ==> |t.exits.stack| == |s.exits.stack| - 1)
      && (s.at == Unwinding && e.Exit? && s.exits.stack == [] ==> t.at == Ended)
      && (t.at == Ended && s.at == Unwinding ==> s.exits.stack == [] && e.Exit?)
  {
    if OfMain(e) {
      MainIsOver(s, e);
    } else if OfTasks(e) {
      TasksLeaveTheStack(s, e);
    }
  }

  lemma MainIsOver(s: State, e: Event)
    requires CleaningUp(s.at) && OfMain(e)
    ensures MainNext(s, e) == s
  {
  }

  lemma TasksLeaveTheStack(s: State, e: Event)
    ensures TaskNext(s, e).at == s.at && TaskNext(s, e).exits == s.exits
  {
  }

  // So

  lemma StaysOnTheWay(s: State, e: Event, lead: seq<Event>, steps: nat)
    requires OnTheWay(s, lead, steps)
    ensures OnTheWay(Next(s, e), lead, steps)
    ensures Progress(s, lead, steps) <= Progress(Next(s, e), lead, steps)
  {
    NextKeeps(s, e);
    if CleaningUp(s.at) {
      CleanupStage(s, e);
    } else {
      StoppedNext(s, e, Withdraw);
      NextStage(s, e);
      NextMode(s, e);
      StageIsBefore(s, lead, steps);
      StackThen(s, Next(s, e));
    }
  }

  /** A stopping session registers at most one step more, as it comes to the cleanup. */
  lemma StackThen(s: State, t: State)
    requires Inv(s) && Inv(t) && s.at.Awaiting() && StaysStopped(s, t) && t.mode == s.mode
    ensures t.at == s.at ==> |t.exits.stack| == |s.exits.stack|
    ensures |t.exits.stack| <= |s.exits.stack| + 1
  {
  }

  lemma GoesOn(s: State, e: Event, lead: seq<Event>, steps: nat)
    requires OnTheWay(s, lead, steps)
    requires 0 <= Progress(s, lead, steps) < |Way(lead, steps)|
    requires Fulfils(e, Way(lead, steps)[Progress(s, lead, steps)])
    ensures Progress(s, lead, steps) < Progress(Next(s, e), lead, steps)
  {
    StaysOnTheWay(s, e, lead, steps);
    if CleaningUp(s.at) {
      CleanupStage(s, e);
    } else {
      ComesOn(s);
      StageIsBefore(s, lead, steps);
    }
  }

  lemma AtTheEnd(s: State, lead: seq<Event>, steps: nat)
    requires OnTheWay(s, lead, steps) && |Way(lead, steps)| <= Progress(s, lead, steps)
    ensures s.at == Ended
  {
    if s.at.Awaiting() {
      StageIsBefore(s, lead, steps);
    }
  }

  lemma {:induction false} ComesToTheEnd(s: State, es: seq<Event>, lead: seq<Event>, steps: nat, j: nat)
    requires OnTheWay(s, lead, steps)
    requires j <= |Way(lead, steps)| && j <= Progress(s, lead, steps)
    requires Contains(es, Way(lead, steps)[j..])
    ensures From(s, es).at == Ended
    decreases |es|
  {
    hide OnTheWay, Progress, Next, Way;
    var way := Way(lead, steps);
    if es == [] {
      AtTheEnd(s, lead, steps);
    } else {
      StaysOnTheWay(s, es[0], lead, steps);
      if j < |way| && Fulfils(es[0], way[j]) {
        if j == Progress(s, lead, steps) {
          GoesOn(s, es[0], lead, steps);
        }
        assert way[j..][1..] == way[j + 1..];
        ComesToTheEnd(Next(s, es[0]), es[1..], lead, steps, j + 1);
      } else {
        ComesToTheEnd(Next(s, es[0]), es[1..], lead, steps, j);
      }
    }
  }

  /**
   A stop always gets to the end, with nothing but turns and timeouts: whatever the main
   task was waiting for, or was cleaning up, in every run that has at most four of them,
   the end of each cleanup step, however it goes, and that of `run`, in this order and
   with anything else in between.
   */
  lemma AStopGetsToTheEnd(mode: Mode, es: seq<Event>, more: seq<Event>)
    requires var s := After(mode, es); s.at == Unwinding || (s.at.Awaiting() && s.halt.why.Some?)
    requires Contains(more, WayOut(After(mode, es)))
    ensures After(mode, es + more).at == Ended
  {
    RunsKeep(mode, es);
    AfterFrom(mode, es, more);
    var s := After(mode, es);
    assert WayOut(s)[0..] == WayOut(s);
    ComesToTheEnd(s, more, ToCleanup(s), |s.exits.stack| + 1, 0);
  }
}
