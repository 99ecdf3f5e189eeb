/**
 `TunnelSession._finish`: a step that, once begun, is waited for even if the tunnel
 stops meanwhile, and what its result is handed to.

 The awaited step runs in a task of its own. The caller waits for it shielded; if
 the caller is cancelled, it waits on for the step, for a limited time.
 */
module Finishing {
  /** The task that runs the step. */
  datatype Step<T> = Busy | Gave(value: T) | Broke

  /**
   Where the caller is: in the shielded wait, in the wait after a cancellation, or
   past both, having returned, raised the step's error, let the stop proceed, or
   given up.
   */
  datatype At = Shielded | Waiting | Returned | Raised | Stopped | GaveUp

  /**
   `cancelled`: a cancellation is to be delivered at the caller's next resumption.
   `timeUp`: the cleanup timeout of the second wait has passed.
   `calls`: what `then` has been called with.
   */
  datatype Finish<T> = Finish(step: Step<T>, at: At, cancelled: bool, timeUp: bool, calls: seq<T>)
  {
    predicate Ended() {
      at != Shielded && at != Waiting
    }
  }

  datatype Event<T> =
    | Completes(value: T)  // the step gives its result
    | Breaks               // the step raises
    | Cancel               // the tunnel stops
    | TimeUp               // the cleanup timeout passes
    | Resume               // the event loop gives the caller a turn

  function Start<T>(): Finish<T> {
    Finish(Busy, Shielded, false, false, [])
  }

  function Advance<T>(f: Finish<T>, e: Event<T>): Finish<T> {
    match e
    case Completes(v) => if f.step.Busy? then f.(step := Gave(v)) else f
    case Breaks => if f.step.Busy? then f.(step := Broke) else f
    case Cancel => if f.at == Shielded then f.(cancelled := true) else f
    case TimeUp => if f.at == Waiting then f.(timeUp := true) else f
    case Resume => Resumed(f)
  }

  /** The caller's turn. Nothing happens if what it waits for has not come. */
  function Resumed<T>(f: Finish<T>): Finish<T> {
    match f.at
    case Shielded =>
      if f.cancelled then f.(at := Waiting, cancelled := false)
      else (
        match f.step
        case Busy => f
        case Gave(v) => f.(at := Returned, calls := f.calls + [v])
        case Broke => f.(at := Raised))
    case Waiting => (
      match f.step
      case Busy => if f.timeUp then f.(at := GaveUp) else f
      case Gave(v) => f.(at := Stopped, calls := f.calls + [v])
      case Broke => f.(at := Stopped))
    case _ => f
  }

  function Run<T>(es: seq<Event<T>>): Finish<T> {
    if es == [] then Start() else Advance(Run(es[..|es| - 1]), es[|es| - 1])
  }

  /** What holds of a finish, whatever happened so far. */
  ghost predicate Sound<T>(f: Finish<T>) {
    && (f.at == Shielded || f.at == Waiting ==> f.calls == [])
    && (f.at == Returned ==> f.step.Gave? && f.calls == [f.step.value])
    && (f.at == Raised ==> f.step.Broke? && f.calls == [])
    && (f.at == Stopped ==>
          || (f.step.Gave? && f.calls == [f.step.value])
          || (f.step.Broke? && f.calls == []))
    && (f.at == GaveUp ==> f.timeUp && f.calls == [])
    && (f.cancelled ==> f.at == Shielded)
  }

  lemma AdvanceKeepsSound<T>(f: Finish<T>, e: Event<T>)
    requires Sound(f)
    ensures Sound(Advance(f, e))
  {
  }

  /**
   For every ordering of the step's completion, the cancellation and the timeout:
   `then` is called at most once, with the step's result; once the caller is past
   the waits, it has been called exactly if the step gave a result and was not
   given up on.
   */
  lemma {:induction false} ThenIsCalledOnceOrNever<T>(es: seq<Event<T>>)
    ensures Sound(Run(es))
    ensures var f := Run(es);
      f.Ended() ==> f.calls == if f.step.Gave? && f.at != GaveUp then [f.step.value] else []
  {
    if es != [] {
      ThenIsCalledOnceOrNever(es[..|es| - 1]);
      AdvanceKeepsSound(Run(es[..|es| - 1]), es[|es| - 1]);
    }
  }

  /** Whether the first of the step's completions and failures in `es` is a completion. */
  predicate Yields<T>(es: seq<Event<T>>) {
    es != [] && (es[0].Completes? || (!es[0].Breaks? && Yields(es[1..])))
  }

  lemma {:induction false} YieldsSnoc<T>(es: seq<Event<T>>, e: Event<T>)
    ensures Yields(es + [e]) == (Yields(es) || (e.Completes? && forall x :: x in es ==> !x.Breaks?))
  {
    if es == [] {
      assert es + [e] == [e];
    } else {
      assert (es + [e])[1..] == es[1..] + [e];
      YieldsSnoc(es[1..], e);
      if es[0].Completes? {
      } else if es[0].Breaks? {
        assert es[0] in es;
      } else {
        assert forall x :: x in es <==> x == es[0] || x in es[1..];
      }
    }
  }

  lemma {:induction false} StepFollowsTheEvents<T>(es: seq<Event<T>>)
    ensures var f := Run(es);
      && (f.step.Gave? <==> Yields(es))
      && (f.step.Busy? ==> forall x :: x in es ==> !x.Completes? && !x.Breaks?)
      && (f.step.Broke? ==> exists x :: x in es && x.Breaks?)
  {
    if es != [] {
      var before, e := es[..|es| - 1], es[|es| - 1];
      assert es == before + [e];
      StepFollowsTheEvents(before);
      YieldsSnoc(before, e);
      assert e in es;
    }
  }

  lemma GaveIfYields<T>(es: seq<Event<T>>)
    ensures Run(es).step.Gave? <==> Yields(es)
  {
    StepFollowsTheEvents(es);
  }

  /** The turn that takes the caller past the waits. */
  lemma LastTurn<T>(f: Finish<T>, e: Event<T>)
    requires Sound(f) && !f.Ended() && Advance(f, e).Ended()
    ensures Advance(f, e).calls != [] <==> f.step.Gave?
  {
  }

  /** Once past the waits, the caller stays where it is, and `then` is not called again. */
  lemma {:induction false} EndedStays<T>(es: seq<Event<T>>, k: nat)
    requires k <= |es| && Run(es[..k]).Ended()
    ensures Run(es).at == Run(es[..k]).at && Run(es).calls == Run(es[..k]).calls
    decreases |es|
  {
    if k == |es| {
      assert es[..k] == es;
    } else {
      var before := es[..|es| - 1];
      assert before[..k] == es[..k];
      EndedStays(before, k);
    }
  }

  /**
   In terms of the events alone: if the caller's turn at `k` takes it past the
   waits, `then` is called, ever, exactly if the step's result came before `k`,
   even if the cleanup timeout passed before it too.
   */
  lemma ThenIsCalledIfTheResultCameInTime<T>(es: seq<Event<T>>, k: nat)
    requires k < |es| && !Run(es[..k]).Ended() && Run(es[..k + 1]).Ended()
    ensures Run(es).calls != [] <==> Yields(es[..k])
  {
    RunNext(es, k);
    ThenIsCalledOnceOrNever(es[..k]);
    LastTurn(Run(es[..k]), es[k]);
    GaveIfYields(es[..k]);
    EndedStays(es, k + 1);
  }

  // How the waits end, in terms of the events alone

  /** The step is over. */
  ghost predicate Over<T>(es: seq<Event<T>>) {
    exists i :: 0 <= i < |es| && (es[i].Completes? || es[i].Breaks?)
  }

  /** At the turn at `k`, the shielded wait has something to wake up for. */
  ghost predicate Wakes<T>(es: seq<Event<T>>, k: nat)
    requires k < |es|
  {
    es[k].Resume? && (Cancel in es[..k] || Over(es[..k]))
  }

  ghost predicate WakesFirst<T>(es: seq<Event<T>>, k: nat) {
    k < |es| && Wakes(es, k) && forall i :: 0 <= i < k ==> !Wakes(es, i)
  }

  /** And at the turn at `j`, the wait that began at `k` has. */
  ghost predicate WakesAgain<T>(es: seq<Event<T>>, k: nat, j: nat)
    requires k < j < |es|
  {
    es[j].Resume? && (TimeUp in es[k + 1..j] || Over(es[..j]))
  }

  ghost predicate WakesNext<T>(es: seq<Event<T>>, k: nat, j: nat) {
    k < j < |es| && WakesAgain(es, k, j) && forall i :: k < i < j ==> !WakesAgain(es, k, i)
  }

  lemma BusyUntilOver<T>(es: seq<Event<T>>)
    ensures Run(es).step.Busy? <==> !Over(es)
    ensures Run(es).step.Gave? <==> Yields(es)
  {
    StepFollowsTheEvents(es);
    if Run(es).step.Gave? {
      YieldsWhenOver(es);
    } else if Run(es).step.Broke? {
      var x :| x in es && x.Breaks?;
      var i :| 0 <= i < |es| && es[i] == x;
    }
  }

  lemma {:induction false} YieldsWhenOver<T>(es: seq<Event<T>>)
    requires Yields(es)
    ensures Over(es)
  {
    if !es[0].Completes? {
      YieldsWhenOver(es[1..]);
      var i :| 0 <= i < |es[1..]| && (es[1..][i].Completes? || es[1..][i].Breaks?);
      assert es[i + 1] == es[1..][i];
    }
  }

  lemma {:induction false} ShieldedUntilThen<T>(es: seq<Event<T>>, n: nat)
    requires n <= |es| && forall i :: 0 <= i < n ==> !Wakes(es, i)
    ensures Run(es[..n]).at == Shielded && (Run(es[..n]).cancelled <==> Cancel in es[..n])
  {
    if n > 0 {
      ShieldedUntilThen(es, n - 1);
      RunNext(es, n - 1);
      BusyUntilOver(es[..n - 1]);
      assert es[..n] == es[..n - 1] + [es[n - 1]];
      assert !Wakes(es, n - 1);
    }
  }

  lemma {:induction false} WaitingUntilThen<T>(es: seq<Event<T>>, k: nat, n: nat)
    requires WakesFirst(es, k) && Cancel in es[..k] && k < n <= |es|
    requires forall i :: k < i < n ==> !WakesAgain(es, k, i)
    ensures Run(es[..n]).at == Waiting && (Run(es[..n]).timeUp <==> TimeUp in es[k + 1..n])
  {
    RunNext(es, n - 1);
    if n == k + 1 {
      ShieldedUntilThen(es, k);
      NoTimeUpYet(es[..k]);
    } else {
      WaitingUntilThen(es, k, n - 1);
      BusyUntilOver(es[..n - 1]);
      assert es[k + 1..n] == es[k + 1..n - 1] + [es[n - 1]];
      assert !WakesAgain(es, k, n - 1);
    }
  }

  lemma {:induction false} NoTimeUpYet<T>(es: seq<Event<T>>)
    ensures Run(es).at == Shielded ==> !Run(es).timeUp
  {
    if es != [] {
      NoTimeUpYet(es[..|es| - 1]);
    }
  }

  lemma {:induction false} FirstWake<T>(es: seq<Event<T>>, n: nat) returns (k: nat)
    requires n <= |es| && exists i :: 0 <= i < n && Wakes(es, i)
    ensures WakesFirst(es, k)
  {
    if exists i :: 0 <= i < n - 1 && Wakes(es, i) {
      k := FirstWake(es, n - 1);
    } else {
      k := n - 1;
    }
  }

  lemma {:induction false} NeverShieldedAgain<T>(es: seq<Event<T>>, k: nat)
    requires k <= |es| && Run(es[..k]).at != Shielded
    ensures Run(es).at != Shielded
    decreases |es|
  {
    if k == |es| {
      assert es[..k] == es;
    } else {
      assert es[..|es| - 1][..k] == es[..k];
      NeverShieldedAgain(es[..|es| - 1], k);
    }
  }

  /**
   The caller waits shielded until its first turn after the step is over or it was
   cancelled.
   */
  lemma ShieldedUntilItWakes<T>(es: seq<Event<T>>)
    ensures Run(es).at == Shielded <==> forall k :: 0 <= k < |es| ==> !Wakes(es, k)
  {
    assert es[..|es|] == es;
    if k :| 0 <= k < |es| && Wakes(es, k) {
      var first := FirstWake(es, |es|);
      ItWakes(es, first);
      NeverShieldedAgain(es, first + 1);
    } else {
      ShieldedUntilThen(es, |es|);
    }
  }

  lemma ItWakes<T>(es: seq<Event<T>>, k: nat)
    requires WakesFirst(es, k)
    ensures Run(es[..k + 1]).at ==
      if Cancel in es[..k] then Waiting else if Yields(es[..k]) then Returned else Raised
  {
    ShieldedUntilThen(es, k);
    BusyUntilOver(es[..k]);
    RunNext(es, k);
    assert Wakes(es, k);
  }

  /** If it was not cancelled by then, it returns the result or raises the step's error, whatever comes later. */
  lemma UncancelledItReturns<T>(es: seq<Event<T>>, k: nat)
    requires WakesFirst(es, k) && Cancel !in es[..k]
    ensures Run(es).at == if Yields(es[..k]) then Returned else Raised
  {
    ItWakes(es, k);
    EndedStays(es, k + 1);
  }

  /**
   If it was, even if the step was over too, it waits on, until its first turn after the
   step is over or the timeout has passed since. Then the cancellation goes on, and it has
   given up on the step exactly if that is not over even now.
   */
  lemma CancelledItWaitsOn<T>(es: seq<Event<T>>, k: nat)
    requires WakesFirst(es, k) && Cancel in es[..k]
    ensures Run(es).at == Waiting <==> forall j :: k < j < |es| ==> !WakesAgain(es, k, j)
    ensures forall j: nat :: WakesNext(es, k, j) ==> Run(es).at == if Over(es[..j]) then Stopped else GaveUp
  {
    assert es[..|es|] == es;
    if i :| k < i < |es| && WakesAgain(es, k, i) {
      var j := NextWake(es, k, |es|);
      AwakeAgain(es, k, j);
    } else {
      WaitingUntilThen(es, k, |es|);
    }
    forall j: nat | WakesNext(es, k, j)
      ensures Run(es).at == if Over(es[..j]) then Stopped else GaveUp
    {
      AwakeAgain(es, k, j);
    }
  }

  lemma {:induction false} NextWake<T>(es: seq<Event<T>>, k: nat, n: nat) returns (j: nat)
    requires n <= |es| && exists i :: k < i < n && WakesAgain(es, k, i)
    ensures WakesNext(es, k, j)
  {
    if exists i :: k < i < n - 1 && WakesAgain(es, k, i) {
      j := NextWake(es, k, n - 1);
    } else {
      j := n - 1;
    }
  }

  lemma AwakeAgain<T>(es: seq<Event<T>>, k: nat, j: nat)
    requires WakesFirst(es, k) && Cancel in es[..k] && WakesNext(es, k, j)
    ensures Run(es).at == if Over(es[..j]) then Stopped else GaveUp
  {
    WaitingUntilThen(es, k, j);
    BusyUntilOver(es[..j]);
    RunNext(es, j);
    EndedStays(es, j + 1);
  }

  /** However far it got, a cancelled caller is past the waits two turns and a timeout later. */
  lemma StoppingEnds<T>(es: seq<Event<T>>)
    ensures Run(es + [Cancel, Resume, TimeUp, Resume]).Ended()
  {
    var a := es + [Cancel];
    var b := a + [Resume];
    var c := b + [TimeUp];
    var d := c + [Resume];
    assert d == es + [Cancel, Resume, TimeUp, Resume];
    assert a[..|a| - 1] == es && b[..|b| - 1] == a && c[..|c| - 1] == b && d[..|d| - 1] == c;
    ThenIsCalledOnceOrNever(es);
    assert Run(a) == Advance(Run(es), Cancel);
    assert Run(b) == Resumed(Run(a));
    assert Run(c) == Advance(Run(b), TimeUp);
    assert Run(d) == Resumed(Run(c));
  }

  lemma RunNext<T>(es: seq<Event<T>>, i: nat)
    requires i < |es|
    ensures Run(es[..i + 1]) == Advance(Run(es[..i]), es[i])
  {
    assert es[..i + 1][..i] == es[..i];
  }

  /**
   The shielded wait, over what happens from the start of `schedule`: ends at the
   caller's first turn, just before `i`, at which it was cancelled or the step is over.
   */
  method AwaitShielded<T>(schedule: seq<Event<T>>)
    returns (i: nat, step: Step<T>, cancelled: bool, resumed: bool)
    ensures !resumed ==> i == |schedule| && Run(schedule) == Finish(step, Shielded, cancelled, false, [])
    ensures resumed ==> i <= |schedule| && (cancelled || !step.Busy?)
                        && Run(schedule[..i]) == Resumed(Finish(step, Shielded, cancelled, false, []))
  {
    i, step, cancelled, resumed := 0, Busy, false, false;
    while i < |schedule| && !resumed
      invariant i <= |schedule|
      invariant !resumed ==> Run(schedule[..i]) == Finish(step, Shielded, cancelled, false, [])
      invariant resumed ==> (cancelled || !step.Busy?)
                            && Run(schedule[..i]) == Resumed(Finish(step, Shielded, cancelled, false, []))
      decreases |schedule| - i
    {
      RunNext(schedule, i);
      match schedule[i] {
        case Completes(v) => if step.Busy? { step := Gave(v); }
        case Breaks => if step.Busy? { step := Broke; }
        case Cancel => cancelled := true;
        case TimeUp =>
        case Resume => resumed := cancelled || !step.Busy?;
      }
      i := i + 1;
    }
    assert schedule[..|schedule|] == schedule;
  }

  /** The wait after a cancellation, from `start` on: ends with the step, or when its time is up. */
  method AwaitDone<T>(schedule: seq<Event<T>>, start: nat, begun: Step<T>)
    returns (i: nat, step: Step<T>, timeUp: bool, resumed: bool)
    requires start <= |schedule|
    requires Run(schedule[..start]) == Finish(begun, Waiting, false, false, [])
    ensures !resumed ==> i == |schedule| && Run(schedule) == Finish(step, Waiting, false, timeUp, [])
    ensures resumed ==> i <= |schedule| && (timeUp || !step.Busy?)
                        && Run(schedule[..i]) == Resumed(Finish(step, Waiting, false, timeUp, []))
  {
    i, step, timeUp, resumed := start, begun, false, false;
    while i < |schedule| && !resumed
      invariant i <= |schedule|
      invariant !resumed ==> Run(schedule[..i]) == Finish(step, Waiting, false, timeUp, [])
      invariant resumed ==> (timeUp || !step.Busy?)
                            && Run(schedule[..i]) == Resumed(Finish(step, Waiting, false, timeUp, []))
      decreases |schedule| - i
    {
      RunNext(schedule, i);
      match schedule[i] {
        case Completes(v) => if step.Busy? { step := Gave(v); }
        case Breaks => if step.Busy? { step := Broke; }
        case Cancel =>
        case TimeUp => timeUp := true;
        case Resume => resumed := timeUp || !step.Busy?;
      }
      i := i + 1;
    }
    assert schedule[..|schedule|] == schedule;
  }

  datatype Verdict<T> = ResultIs(value: T) | StepRaises | CancelledRaises | StillWaiting

  /** `_finish` itself, against a schedule of what happens around it. */
  method RunFinish<T>(schedule: seq<Event<T>>) returns (verdict: Verdict<T>, calls: seq<T>, gaveUp: bool)
    ensures verdict.StillWaiting? <==> !Run(schedule).Ended()
    ensures verdict.ResultIs? ==> Run(schedule).at == Returned && calls == [verdict.value]
    ensures verdict.StepRaises? ==> Run(schedule).at == Raised
    ensures verdict.CancelledRaises? ==> Run(schedule).at == if gaveUp then GaveUp else Stopped
    ensures calls == Run(schedule).calls
  {
    var i, step, cancelled, resumed := AwaitShielded(schedule);
    if !resumed {
      return StillWaiting, [], false;
    }
    if !cancelled {
      EndedStays(schedule, i);
      if step.Gave? {
        return ResultIs(step.value), [step.value], false;
      }
      return StepRaises, [], false;
    }
    var timeUp;
    i, step, timeUp, resumed := AwaitDone(schedule, i, step);
    if !resumed {
      return StillWaiting, [], false;
    }
    EndedStays(schedule, i);
    if step.Busy? {
      return CancelledRaises, [], true;
    }
    return CancelledRaises, if step.Gave? then [step.value] else [], false;
  }
}
