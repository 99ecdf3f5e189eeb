/** What the output thread may do with a display, whatever calls it is handed and by whom. */
module Displays {
  import opened Prelude
  import opened OutputThread

  /** Someone hands a call over, or the thread takes a turn. */
  datatype Step = Hand(call: Call) | Take(turn: Turn)

  function Stepped(t: Thread, step: Step): Thread {
    match step
    case Hand(call) => Given(t, call)
    case Take(turn) => Turned(t, turn)
  }

  function Ran(steps: seq<Step>): Thread {
    if steps == [] then BEGIN else Stepped(Ran(steps[..|steps| - 1]), steps[|steps| - 1])
  }

  lemma {:induction false} StepsKeep(steps: seq<Step>)
    ensures Inv(Ran(steps))
  {
    if steps != [] {
      var t := Ran(steps[..|steps| - 1]);
      StepsKeep(steps[..|steps| - 1]);
      match steps[|steps| - 1]
      case Hand(call) => GivenKeeps(t, call);
      case Take(turn) => TurnedKeeps(t, turn);
    } else {
      assert LastFailed([]) == None;
    }
  }

  lemma RanOneMore(steps: seq<Step>, step: Step)
    ensures Ran(steps + [step]) == Stepped(Ran(steps), step)
  {
    assert (steps + [step])[..|steps|] == steps;
  }

  lemma RanTwoMore(steps: seq<Step>, step: Step, next: Step)
    ensures Ran(steps + [step] + [next]) == Stepped(Stepped(Ran(steps), step), next)
  {
    RanOneMore(steps, step);
    RanOneMore(steps + [step], next);
  }

  function StepsOf(s: State, e: Event): (steps: seq<Step>)
    ensures |steps| <= 2
  {
    match e
    case Give(what) => [Hand(Write(what))]
    case Open => if s.display.Some? then [] else [Hand(Show(s.made))]
    case Close => if s.display.None? then [] else [Hand(Hide(s.display.value))]
    case Begin(p) =>
      if p in s.pauses || s.display.None? then [] else [Hand(Hide(s.display.value)), Hand(Set)]
    case End(p) =>
      if p !in s.pauses || s.pauses[p].display.None? then [] else [Hand(Show(s.pauses[p].display.value))]
    case HideNow => if s.display.None? then [] else [Hand(Hide(s.display.value))]
    case Flush => [Hand(Set)]
    case Run(turn) => [Take(turn)]
  }

  lemma NextIsSteps(s: State, e: Event)
    ensures var steps, t := StepsOf(s, e), Next(s, e).thread;
      && (steps == [] ==> t == s.thread)
      && (|steps| == 1 ==> t == Stepped(s.thread, steps[0]))
      && (|steps| == 2 ==> t == Stepped(Stepped(s.thread, steps[0]), steps[1]))
  {
  }

  lemma RanMore(steps: seq<Step>, more: seq<Step>)
    requires |more| <= 2
    ensures var t := Ran(steps);
      && (more == [] ==> Ran(steps + more) == t)
      && (|more| == 1 ==> Ran(steps + more) == Stepped(t, more[0]))
      && (|more| == 2 ==> Ran(steps + more) == Stepped(Stepped(t, more[0]), more[1]))
  {
    hide Stepped, Ran;
    if more == [] {
      assert steps + more == steps;
    } else if |more| == 1 {
      assert more == [more[0]];
      RanOneMore(steps, more[0]);
    } else {
      assert steps + more == steps + [more[0]] + [more[1]];
      RanTwoMore(steps, more[0], more[1]);
    }
  }

  /** Each event of those who share the console is a few such steps. */
  lemma {:induction false} EveryRunIsSteps(es: seq<Event>) returns (steps: seq<Step>)
    ensures Ran(steps) == After(INIT, es).thread
  {
    if es == [] {
      return [];
    }
    hide Stepped, Ran, Next, StepsOf;
    var before := EveryRunIsSteps(es[..|es| - 1]);
    var s, e := After(INIT, es[..|es| - 1]), es[|es| - 1];
    NextIsSteps(s, e);
    RanMore(before, StepsOf(s, e));
    steps := before + StepsOf(s, e);
  }

  // Where a draw comes from

  /** `from[k]` is the call that has the `k`th draw made. */
  ghost predicate Sourced(t: Thread, from: seq<nat>) {
    && |from| == |t.draws|
    && (forall k :: 0 <= k < |from| ==> from[k] < |t.executed| && t.executed[from[k]] == Show(t.draws[k].display))
    && (forall j, k :: 0 <= j < k < |from| ==> from[j] <= from[k])
    && (t.live.Some? ==> t.draws != [] && t.draws[|t.draws| - 1].display == t.live.value)
  }

  lemma CallDraws(t: Thread, started: bool)
    requires t.writes != []
    ensures var call, u := t.writes[0], Called(t, started);
      && u.executed == t.executed + [call]
      && (|| (u.draws == t.draws && (u.live == t.live || u.live.None?))
          || (call.Show? && u.draws == t.draws + [Draw(call.display, started)]
              && (u.live.Some? ==> u.live.value == call.display)))
  {
  }

  lemma CalledFrom(t: Thread, started: bool, from: seq<nat>) returns (more: seq<nat>)
    requires t.writes != [] && Sourced(t, from)
    ensures Sourced(Called(t, started), more)
  {
    hide Called;
    CallDraws(t, started);
    more := if Called(t, started).draws == t.draws then from else from + [|t.executed|];
  }

  lemma RedrawnFrom(t: Thread, ok: bool, from: seq<nat>)
    requires t.live.Some? && Sourced(t, from)
    ensures Sourced(Redrawn(t, ok), from + [from[|from| - 1]])
  {
  }

  lemma SteppedFrom(t: Thread, step: Step, from: seq<nat>) returns (more: seq<nat>)
    requires Sourced(t, from)
    ensures Sourced(Stepped(t, step), more)
  {
    more := from;
    if step.Take? {
      var u := t;
      if step.turn.got && t.writes != [] {
        more := CalledFrom(t, step.turn.started, from);
        u := Called(t, step.turn.started);
      }
      if u.live.Some? && step.turn.due {
        RedrawnFrom(u, step.turn.redrawn, more);
        more := more + [more[|more| - 1]];
      }
    }
  }

  lemma {:induction false} Sources(steps: seq<Step>) returns (from: seq<nat>)
    ensures Sourced(Ran(steps), from)
  {
    from := [];
    if steps != [] {
      from := Sources(steps[..|steps| - 1]);
      from := SteppedFrom(Ran(steps[..|steps| - 1]), steps[|steps| - 1], from);
    }
  }

  // One call, one turn

  /** Each call is made at once; of the displays, `works` alone can be drawn. */
  function Plays(calls: seq<Call>, works: Option<nat>): seq<Step> {
    if calls == [] then []
    else
      var call := calls[|calls| - 1];
      Plays(calls[..|calls| - 1], works) + [Hand(call)] + [Take(Turn(true, Works(call, works), false, false))]
  }

  predicate Works(call: Call, works: Option<nat>) {
    works.Some? && call == Show(works.value)
  }

  /** What a call made at once does to the thread. */
  function Played(t: Thread, call: Call, works: Option<nat>): Thread {
    var after := t.(handed := t.handed + [call], executed := t.executed + [call]);
    match call
    case Show(display) => Shown(after, display, Works(call, works))
    case Hide(display) => Hidden(after, display)
    case _ => after
  }

  function AllPlayed(calls: seq<Call>, works: Option<nat>): Thread {
    if calls == [] then BEGIN else Played(AllPlayed(calls[..|calls| - 1], works), calls[|calls| - 1], works)
  }

  lemma {:induction false} AllAreMade(calls: seq<Call>, works: Option<nat>)
    ensures var t := AllPlayed(calls, works); t.handed == calls && t.executed == calls && t.writes == []
  {
    if calls != [] {
      AllAreMade(calls[..|calls| - 1], works);
      assert calls == calls[..|calls| - 1] + [calls[|calls| - 1]];
    }
  }

  lemma PlayOne(t: Thread, call: Call, works: Option<nat>)
    requires t.writes == []
    ensures Stepped(Stepped(t, Hand(call)), Take(Turn(true, Works(call, works), false, false))) == Played(t, call, works)
  {
    assert [] + [call] == [call] && [call][1..] == [];
  }

  /** Those steps do that. */
  lemma {:induction false} PlaysPlay(calls: seq<Call>, works: Option<nat>)
    ensures Ran(Plays(calls, works)) == AllPlayed(calls, works)
  {
    if calls != [] {
      hide Stepped, Ran, Played, Works;
      var front, call := calls[..|calls| - 1], calls[|calls| - 1];
      PlaysPlay(front, works);
      AllAreMade(front, works);
      RanTwoMore(Plays(front, works), Hand(call), Take(Turn(true, Works(call, works), false, false)));
      PlayOne(AllPlayed(front, works), call, works);
    }
  }

  // A failed display drawn again

  /** Some way of handing over `calls`, and some turns of the thread, draw `display` again after it failed. */
  ghost predicate CanBeDrawnAgain(calls: seq<Call>, display: nat) {
    exists steps, j, k :: DrawnAgain(Ran(steps), calls, display, j, k)
  }

  predicate DrawnAgain(t: Thread, calls: seq<Call>, display: nat, j: nat, k: nat) {
    && t.handed == calls
    && j < k < |t.draws| && t.draws[j] == Draw(display, false) && t.draws[k].display == display
  }

  /** It is shown, then another, then it is once more. */
  ghost predicate ShownBetween(calls: seq<Call>, display: nat) {
    exists a, b, c :: Between(calls, display, a, b, c)
  }

  predicate Between(calls: seq<Call>, display: nat, a: nat, b: nat, c: nat) {
    && a < b < c < |calls|
    && calls[a] == Show(display) && calls[c] == Show(display)
    && calls[b].Show? && calls[b].display != display
  }

  lemma DrawnAgainMeansShownBetween(steps: seq<Step>, display: nat, j: nat, k: nat)
    requires DrawnAgain(Ran(steps), Ran(steps).handed, display, j, k)
    ensures ShownBetween(Ran(steps).handed, display)
  {
    var t := Ran(steps);
    StepsKeep(steps);
    var from := Sources(steps);
    FailureBetween(t.draws, j, k);
    var i :| j < i < k && !t.draws[i].ok && t.draws[i].display != display;
    assert t.handed[..|t.executed|] == t.executed;
    assert from[j] != from[i] && from[i] != from[k];
    assert Between(t.handed, display, from[j], from[i], from[k]);
  }

  predicate LastFailing(t: Thread, display: nat) {
    t.draws != [] && t.draws[|t.draws| - 1] == Draw(display, false)
  }

  /** No display has been drawn, and the last to fail is the last drawn. */
  predicate NoneWorked(t: Thread) {
    && t.live.None?
    && (t.draws == [] ==> t.failed.None?)
    && (t.draws != [] ==> t.failed.Some? && LastFailing(t, t.failed.value))
  }

  lemma NothingPlayed(t: Thread, call: Call)
    requires NoneWorked(t)
    ensures var u := Played(t, call, None);
      && NoneWorked(u) && t.draws <= u.draws && (call.Show? ==> LastFailing(u, call.display))
  {
  }

  lemma {:induction false} NothingWorks(calls: seq<Call>)
    ensures NoneWorked(AllPlayed(calls, None))
    ensures calls != [] && calls[|calls| - 1].Show? ==>
      LastFailing(AllPlayed(calls, None), calls[|calls| - 1].display)
  {
    hide NoneWorked, LastFailing, Played;
    if calls == [] {
      NoneAtFirst();
    } else {
      var front := calls[..|calls| - 1];
      NothingWorks(front);
      NothingPlayed(AllPlayed(front, None), calls[|calls| - 1]);
    }
  }

  lemma NoneAtFirst()
    ensures NoneWorked(BEGIN)
  {
  }

  lemma {:induction false} DrawsGrow(calls: seq<Call>, n: nat)
    requires n <= |calls|
    ensures AllPlayed(calls[..n], None).draws <= AllPlayed(calls, None).draws
  {
    hide Played;
    if n < |calls| {
      var front := calls[..|calls| - 1];
      assert front[..n] == calls[..n];
      DrawsGrow(front, n);
      NothingWorks(front);
      NothingPlayed(AllPlayed(front, None), calls[|calls| - 1]);
    } else {
      assert calls[..n] == calls;
    }
  }

  /** The draws when a call to show `display` has just been made, and those at the end. */
  lemma DrawnBy(calls: seq<Call>, k: nat)
    requires k < |calls| && calls[k].Show?
    ensures var t := AllPlayed(calls[..k + 1], None);
      LastFailing(t, calls[k].display) && t.draws <= AllPlayed(calls, None).draws
  {
    var some := calls[..k + 1];
    assert some[|some| - 1] == calls[k];
    NothingWorks(some);
    DrawsGrow(calls, k + 1);
  }

  lemma ShownBetweenMayDrawAgain(calls: seq<Call>, display: nat, a: nat, b: nat, c: nat)
    requires Between(calls, display, a, b, c)
    ensures CanBeDrawnAgain(calls, display)
  {
    hide Ran, Plays, AllPlayed, LastFailing;
    DrawnBy(calls, a);
    DrawnBy(calls, b);
    DrawnBy(calls, c);
    assert calls[..b + 1][..a + 1] == calls[..a + 1] && calls[..c + 1][..b + 1] == calls[..b + 1];
    DrawsGrow(calls[..b + 1], a + 1);
    DrawsGrow(calls[..c + 1], b + 1);
    PlaysPlay(calls, None);
    AllAreMade(calls, None);
    var first, other := AllPlayed(calls[..a + 1], None), AllPlayed(calls[..b + 1], None);
    var last := AllPlayed(calls[..c + 1], None);
    LaterDraws(first, other, last, display, calls[b].display);
    var t, j, k := AllPlayed(calls, None), |first.draws| - 1, |last.draws| - 1;
    assert t.draws[j] == first.draws[j] && t.draws[k] == last.draws[k];
    assert DrawnAgain(Ran(Plays(calls, None)), calls, display, j, k);
  }

  lemma LaterDraws(first: Thread, other: Thread, last: Thread, display: nat, another: nat)
    requires LastFailing(first, display) && LastFailing(other, another) && LastFailing(last, display)
    requires another != display && first.draws <= other.draws && other.draws <= last.draws
    ensures 0 < |first.draws| < |last.draws|
    ensures first.draws[|first.draws| - 1] == last.draws[|last.draws| - 1] == Draw(display, false)
  {
    assert first.draws[|first.draws| - 1] == other.draws[|first.draws| - 1];
    assert other.draws[|other.draws| - 1] == last.draws[|other.draws| - 1];
  }

  /**
   A display that failed to draw can be drawn again exactly if it is handed over to be shown
   twice, with another display in between.
   */
  lemma DrawnAgainExactlyIfShownBetween(calls: seq<Call>, display: nat)
    ensures CanBeDrawnAgain(calls, display) <==> ShownBetween(calls, display)
  {
    if CanBeDrawnAgain(calls, display) {
      var steps, j, k :| DrawnAgain(Ran(steps), calls, display, j, k);
      DrawnAgainMeansShownBetween(steps, display, j, k);
    }
    if ShownBetween(calls, display) {
      var a, b, c :| Between(calls, display, a, b, c);
      ShownBetweenMayDrawAgain(calls, display, a, b, c);
    }
  }

  // A display left up

  /** Once all of `calls` is made, `display` may still be up. */
  ghost predicate CanBeLeftUp(calls: seq<Call>, display: nat) {
    exists steps :: LeftUp(Ran(steps), calls, display)
  }

  predicate LeftUp(t: Thread, calls: seq<Call>, display: nat) {
    t.handed == calls && t.writes == [] && display in t.up
  }

  /** The last call about `display` is to show it. */
  predicate ShownLast(calls: seq<Call>, display: nat) {
    && calls != []
    && var call := calls[|calls| - 1];
       call == Show(display) || (call != Hide(display) && ShownLast(calls[..|calls| - 1], display))
  }

  lemma ShownLastNext(calls: seq<Call>, call: Call, display: nat)
    ensures ShownLast(calls + [call], display) ==
      (call == Show(display) || (call != Hide(display) && ShownLast(calls, display)))
  {
    assert (calls + [call])[..|calls|] == calls;
  }

  ghost predicate ShowsWhatItMust(t: Thread) {
    t.live.Some? ==> ShownLast(t.executed, t.live.value)
  }

  lemma CalledShows(t: Thread, started: bool)
    requires t.writes != [] && ShowsWhatItMust(t)
    ensures ShowsWhatItMust(Called(t, started))
  {
    var u := Called(t, started);
    if u.live.Some? {
      ShownLastNext(t.executed, t.writes[0], u.live.value);
    }
  }

  lemma SteppedShows(t: Thread, step: Step)
    requires ShowsWhatItMust(t)
    ensures ShowsWhatItMust(Stepped(t, step))
  {
    if step.Take? && step.turn.got && t.writes != [] {
      CalledShows(t, step.turn.started);
    }
  }

  lemma {:induction false} StepsShow(steps: seq<Step>)
    ensures ShowsWhatItMust(Ran(steps))
  {
    if steps != [] {
      StepsShow(steps[..|steps| - 1]);
      SteppedShows(Ran(steps[..|steps| - 1]), steps[|steps| - 1]);
    }
  }

  /** If only `display` can be drawn, it is up after its last call, if that is to show it. */
  lemma {:induction false} OnlyThisWorks(calls: seq<Call>, display: nat)
    ensures var t := AllPlayed(calls, Some(display));
      && t.failed != Some(display) && (t.live.Some? ==> t.live.value == display)
      && (ShownLast(calls, display) ==> t.live == Some(display))
  {
    if calls != [] {
      OnlyThisWorks(calls[..|calls| - 1], display);
    }
  }

  /** A display can be left up for good exactly if the last call about it is to show it. */
  lemma LeftUpExactlyIfShownLast(calls: seq<Call>, display: nat)
    ensures CanBeLeftUp(calls, display) <==> ShownLast(calls, display)
  {
    if CanBeLeftUp(calls, display) {
      var steps :| LeftUp(Ran(steps), calls, display);
      StepsKeep(steps);
      StepsShow(steps);
      var t := Ran(steps);
      assert t.executed + [] == t.executed;
    }
    if ShownLast(calls, display) {
      var steps := Plays(calls, Some(display));
      OnlyThisWorks(calls, display);
      PlaysPlay(calls, Some(display));
      AllAreMade(calls, Some(display));
      StepsKeep(steps);
      assert LeftUp(Ran(steps), calls, display);
    }
  }

  // Pauses that end late

  const FAILING_TURN: Turn := Turn(true, false, false, false)

  /** A pause that ends in a later display's block has the display it hid drawn again after it failed. */
  lemma ALatePauseDrawsAFailedDisplayAgain()
    ensures After(INIT, [Open, Begin(0), Close, Open, End(0)] + seq(6, _ => Run(FAILING_TURN))).thread.draws
         == [Draw(0, false), Draw(1, false), Draw(0, false)]
  {
    var es := [Open, Begin(0), Close, Open, End(0)];
    AfterBoth(INIT, es, seq(6, _ => Run(FAILING_TURN)));
    AfterALatePause();
    AfterTurns(After(INIT, es), FAILING_TURN, 6);
    AllFail(After(INIT, es).thread);
  }

  lemma AfterALatePause()
    ensures var s := After(INIT, [Open, Begin(0), Close, Open, End(0)]);
      && s.thread.writes == [Show(0), Hide(0), Set, Hide(0), Show(1), Show(0)]
      && s.thread.live == None && s.thread.failed == None && s.thread.draws == []
  {
    var es := [Open, Begin(0), Close, Open, End(0)];
    assert es[..4][..3] == es[..3] && es[..3][..2] == es[..2] && es[..2][..1] == es[..1] && es[..1][..0] == [];
    assert After(INIT, es[..1]) == Next(INIT, Open);
    assert After(INIT, es[..2]) == Next(After(INIT, es[..1]), Begin(0));
    assert After(INIT, es[..3]) == Next(After(INIT, es[..2]), Close);
    assert After(INIT, es[..4]) == Next(After(INIT, es[..3]), Open);
  }

  lemma AllFail(t: Thread)
    requires t.writes == [Show(0), Hide(0), Set, Hide(0), Show(1), Show(0)]
    requires t.live == None && t.failed == None && t.draws == []
    ensures Turns(t, FAILING_TURN, 6).draws == [Draw(0, false), Draw(1, false), Draw(0, false)]
  {
    TheFirstFails(t);
    var a := Turns(t, FAILING_TURN, 4);
    assert Turns(t, FAILING_TURN, 5) == Turned(a, FAILING_TURN);
    assert Turns(t, FAILING_TURN, 6) == Turned(Turned(a, FAILING_TURN), FAILING_TURN);
  }

  lemma TheFirstFails(t: Thread)
    requires t.writes == [Show(0), Hide(0), Set, Hide(0), Show(1), Show(0)]
    requires t.live == None && t.failed == None && t.draws == []
    ensures var u := Turns(t, FAILING_TURN, 4);
      u.writes == [Show(1), Show(0)] && u.live == None && u.failed == Some(0) && u.draws == [Draw(0, false)]
  {
    var a := Turns(t, FAILING_TURN, 2);
    assert Turns(t, FAILING_TURN, 0) == t && Turns(t, FAILING_TURN, 1) == Turned(t, FAILING_TURN);
    assert a == Turned(Turned(t, FAILING_TURN), FAILING_TURN);
    assert a.writes == [Set, Hide(0), Show(1), Show(0)] && a.live == None;
    assert a.failed == Some(0) && a.draws == [Draw(0, false)];
    assert Turns(t, FAILING_TURN, 3) == Turned(a, FAILING_TURN);
    assert Turns(t, FAILING_TURN, 4) == Turned(Turned(a, FAILING_TURN), FAILING_TURN);
  }
}
