/** What the main task waits for, and in which order. */
module SessionWaits {
  import opened Prelude
  import opened Session
  import opened SessionInvariants
  import opened SessionResults

  /** What it takes to serve, one after the other. */
  function Plan(mode: Mode): seq<At> {
    [ConnectAt, PrepareAt, SftpAt, GatherAt, LeaseAt, SubmitAt]
    + (if mode == Batch then [] else [CommandAt])
    + [JobAt, PortAt, EndpointAt, ForwardAt, PublishAt, ServeAt]
  }

  /** What the main task has waited for, in turn. */
  function Awaited(mode: Mode, es: seq<Event>): seq<At> {
    if es == [] then []
    else
      var before, was, now := es[..|es| - 1], After(mode, es[..|es| - 1]).at, After(mode, es).at;
      Awaited(mode, before) + if now != was && now.Awaiting() then [now] else []
  }

  function Following(mode: Mode, at: At): At {
    match at
    case Begin => ConnectAt
    case ConnectAt => PrepareAt
    case PrepareAt => SftpAt
    case SftpAt => GatherAt
    case GatherAt => LeaseAt
    case LeaseAt => SubmitAt
    case SubmitAt => if mode == Batch then JobAt else CommandAt
    case CommandAt => JobAt
    case JobAt => PortAt
    case PortAt => EndpointAt
    case EndpointAt => ForwardAt
    case ForwardAt => PublishAt
    case PublishAt => ServeAt
    case _ => Ended
  }

  lemma FollowsInPlan(mode: Mode, n: nat)
    requires n < |Plan(mode)|
    ensures Plan(mode)[n].Awaiting()
    ensures n == 0 ==> Plan(mode)[n] == Following(mode, Begin)
    ensures n > 0 ==> Plan(mode)[n] == Following(mode, Plan(mode)[n - 1])
  {
  }

  lemma LastInPlan(mode: Mode, n: nat)
    requires 0 < n <= |Plan(mode)|
    ensures Following(mode, Plan(mode)[n - 1]).Awaiting() ==> n < |Plan(mode)|
  {
  }

  predicate GoesOn(s: State, t: State) {
    || t.at == s.at || t.at == Unwinding || t.at == Ended || (t.at == Following(s.mode, s.at) && t.at.Awaiting())
  }

  lemma ProceedsOn(s: State)
    ensures GoesOn(s, Proceeds(s))
  {
  }

  lemma TurnsOn(s: State)
    requires Inv(s)
    ensures GoesOn(s, Turns(s))
  {
  }

  lemma PollsOn(s: State, state: JobState, hosted: bool)
    requires Polling(s)
    ensures GoesOn(s, Polls(s, state, hosted))
  {
  }

  lemma MainOn(s: State, e: Event)
    requires Inv(s) && OfMain(e) && s.at != Begin
    ensures GoesOn(s, MainNext(s, e))
  {
    hide Inv, Proceeds, Turns, Polls;
    match e
    case Proceed => ProceedsOn(s);
    case Turn => TurnsOn(s);
    case Polled(state, hosted) => if Polling(s) { PollsOn(s, state, hosted); }
    case _ =>
  }

  lemma OthersLeaveIt(s: State, e: Event)
    requires !OfMain(e) && !e.OldBlock? && s.at != Begin
    ensures GoesOn(s, OtherNext(s, e))
  {
  }

  lemma NextGoesOn(s: State, e: Event)
    requires Inv(s)
    ensures GoesOn(s, Next(s, e))
  {
    hide Inv, MainNext, OtherNext;
    if e.OldBlock? || s.at == Begin {
    } else if OfMain(e) {
      MainOn(s, e);
    } else {
      OthersLeaveIt(s, e);
    }
  }

  /** Those are the first of the plan, up to where the main task is, or got to before the cleanup. */
  ghost predicate InOrder(mode: Mode, at: At, awaited: seq<At>) {
    && awaited <= Plan(mode)
    && (at == Begin ==> awaited == [])
    && (at.Awaiting() ==> awaited != [] && awaited[|awaited| - 1] == at)
  }

  lemma InOrderNext(mode: Mode, was: At, now: At, awaited: seq<At>)
    requires InOrder(mode, was, awaited) && now == Following(mode, was) && now.Awaiting()
    ensures InOrder(mode, now, awaited + [now])
  {
    hide Plan, Following;
    var n := |awaited|;
    OnlyThenOn(mode, was);
    if n > 0 {
      assert was == Plan(mode)[n - 1];
      LastInPlan(mode, n);
    } else {
      TheFirst(mode);
    }
    FollowsInPlan(mode, n);
  }

  lemma AwaitedNext(mode: Mode, es: seq<Event>, e: Event)
    ensures var was, now := After(mode, es).at, After(mode, es + [e]).at;
      Awaited(mode, es + [e]) == Awaited(mode, es) + if now != was && now.Awaiting() then [now] else []
  {
    assert (es + [e])[..|es|] == es;
  }

  /** In every run the main task waits for what it takes to serve in the order of the plan, leaving nothing out. */
  lemma {:induction false} TheWaitsComeInOrder(mode: Mode, es: seq<Event>)
    ensures InOrder(mode, After(mode, es).at, Awaited(mode, es))
  {
    if es != [] {
      hide Inv, Next, InOrder, Following, Awaited;
      var before, e := es[..|es| - 1], es[|es| - 1];
      TheWaitsComeInOrder(mode, before);
      RunsKeep(mode, before);
      ModeStays(mode, before);
      var s := After(mode, before);
      NextGoesOn(s, e);
      assert es == before + [e];
      AwaitedNext(mode, before, e);
      var awaited, now := Awaited(mode, before), Next(s, e).at;
      assert awaited + [] == awaited;
      if now != s.at && now.Awaiting() {
        InOrderNext(mode, s.at, now, awaited);
      } else {
        InOrderStays(mode, s.at, now, awaited);
      }
    }
  }

  lemma InOrderStays(mode: Mode, was: At, now: At, awaited: seq<At>)
    requires InOrder(mode, was, awaited) && (now == was || now == Unwinding || now == Ended)
    ensures InOrder(mode, now, awaited)
  {
  }

  lemma OnlyThenOn(mode: Mode, at: At)
    ensures Following(mode, at).Awaiting() ==> at == Begin || at.Awaiting()
  {
  }

  lemma TheFirst(mode: Mode)
    ensures |Plan(mode)| >= 12
  {
  }
}
