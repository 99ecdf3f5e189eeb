/** The console's display as this program uses it: the main thread shows it, and pauses it only to ask. */
module Prompts {
  import opened Prelude
  import opened OutputThread

  /** What may happen at any time: other threads' output, the output thread's turns, and the second Ctrl+C. */
  type Aside = e: Event | e.Give? || e.Flush? || e.Run? || e.HideNow? witness Flush

  /** What the main thread does, one after the other, and what happens between. */
  datatype Act =
    | Outside(aside: Aside)
    | Enter                          // the block of `live_display`
    | Leave
    | Ask(meanwhile: seq<Aside>)     // `ask`, which blocks the main thread while it waits

  function EventsOf(act: Act): seq<Event> {
    match act
    case Outside(aside) => [aside]
    case Enter => [Open]
    case Leave => [Close]
    case Ask(meanwhile) => [Flush, Begin(0)] + meanwhile + [End(0)]
  }

  function Program(acts: seq<Act>): seq<Event> {
    if acts == [] then [] else Program(acts[..|acts| - 1]) + EventsOf(acts[|acts| - 1])
  }

  /** A run of the program, ended anywhere: it may be in the middle of a prompt. */
  ghost predicate Happens(es: seq<Event>) {
    exists acts :: es <= Program(acts)
  }

  // Its pauses are nested

  ghost predicate NestedFrom(s: State, es: seq<Event>) {
    forall k :: 0 <= k < |es| ==> NestedHere(s, es, k)
  }

  ghost predicate NestedHere(s: State, es: seq<Event>, k: nat)
    requires k < |es|
  {
    Nested(After(s, es[..k]), es[k])
  }

  lemma NestedBoth(s: State, es: seq<Event>, more: seq<Event>)
    requires NestedFrom(s, es) && NestedFrom(After(s, es), more)
    ensures NestedFrom(s, es + more)
  {
    var all := es + more;
    forall k | 0 <= k < |all|
      ensures NestedHere(s, all, k)
    {
      if k < |es| {
        assert all[..k] == es[..k];
        assert NestedHere(s, es, k);
      } else {
        assert all[..k] == es + more[..k - |es|];
        AfterBoth(s, es, more[..k - |es|]);
        assert NestedHere(After(s, es), more, k - |es|);
      }
    }
  }

  lemma {:induction false} AsidesPauseNothing(s: State, asides: seq<Aside>)
    ensures After(s, asides).pauses == s.pauses && After(s, asides).display == s.display
  {
    if asides != [] {
      AsidesPauseNothing(s, asides[..|asides| - 1]);
    }
  }

  /** Up to the prompt: what was handed over is written, and the display is hidden. */
  function Asked(s: State): State {
    Next(Next(s, Flush), Begin(0))
  }

  lemma AfterAsked(s: State, asides: seq<Aside>)
    ensures After(s, [Flush, Begin(0)] + asides) == After(Asked(s), asides)
    ensures After(s, [Flush, Begin(0)] + asides + [End(0)]) == Next(After(Asked(s), asides), End(0))
  {
    var es: seq<Event> := [Flush, Begin(0)];
    assert es[..1] == [Flush] && es[..1][..0] == [];
    assert After(s, es[..1]) == Next(s, Flush);
    AfterBoth(s, es, asides);
    assert (es + asides + [End(0)])[..|es + asides|] == es + asides;
  }

  lemma AnActIsNested(s: State, act: Act)
    requires s.pauses == map[]
    ensures NestedFrom(s, EventsOf(act)) && After(s, EventsOf(act)).pauses == map[]
  {
    var es := EventsOf(act);
    if act.Ask? {
      AfterAsked(s, act.meanwhile);
      AsidesPauseNothing(Asked(s), act.meanwhile);
      assert forall k :: 0 <= k < |es| ==> !es[k].Close?;
    } else {
      assert es[..0] == [] && After(s, es) == Next(s, es[0]);
    }
  }

  lemma {:induction false} TheProgramIsNested(acts: seq<Act>)
    ensures NestedFrom(INIT, Program(acts)) && After(INIT, Program(acts)).pauses == map[]
  {
    if acts != [] {
      var before, act := Program(acts[..|acts| - 1]), acts[|acts| - 1];
      TheProgramIsNested(acts[..|acts| - 1]);
      AnActIsNested(After(INIT, before), act);
      NestedBoth(INIT, before, EventsOf(act));
      AfterBoth(INIT, before, EventsOf(act));
    }
  }

  /** In every run of the program, at every moment of it, pauses end within their display's block. */
  lemma EveryRunIsNested(es: seq<Event>)
    requires Happens(es)
    ensures AllNested(es)
  {
    var acts :| es <= Program(acts);
    TheProgramIsNested(acts);
    var all := Program(acts);
    forall k | 0 <= k < |es|
      ensures NestedAt(es, k)
    {
      assert all[..k] == es[..k];
      assert NestedHere(INIT, all, k);
    }
  }

  // So

  /** In no run of the program is a display drawn again that failed to. */
  lemma AFailedDisplayIsGone(es: seq<Event>, j: nat, k: nat)
    requires Happens(es)
    requires var draws := After(INIT, es).thread.draws; j < k < |draws| && !draws[j].ok
    ensures var draws := After(INIT, es).thread.draws; draws[j].display != draws[k].display
  {
    EveryRunIsNested(es);
    AFailedDisplayIsNeverDrawnAgain(es, j, k);
  }

  /** In no run is a display up outside its block, once what was handed over is written. */
  lemma NoDisplayIsLeft(es: seq<Event>)
    requires Happens(es)
    requires After(INIT, es).display.None? && After(INIT, es).thread.writes == []
    ensures After(INIT, es).thread.up == {}
  {
    EveryRunIsNested(es);
    NoDisplayOutlivesItsBlock(es);
  }

  // Between prompts

  /** Nobody quits by a second Ctrl+C, which hides the display for good. */
  predicate NoneQuits(acts: seq<Act>) {
    forall i :: 0 <= i < |acts| ==> !Quits(acts[i])
  }

  predicate Quits(act: Act) {
    match act
    case Outside(aside) => aside.HideNow?
    case Ask(meanwhile) => exists i :: 0 <= i < |meanwhile| && meanwhile[i].HideNow?
    case _ => false
  }

  /** The display of the block is to be shown. */
  ghost predicate ToBeShown(s: State) {
    s.display.Some? ==> Last(s.thread.handed) == Some(Show(s.display.value))
  }

  lemma {:induction false} AsidesCallNothing(s: State, asides: seq<Aside>)
    requires forall i :: 0 <= i < |asides| ==> !asides[i].HideNow?
    ensures Last(After(s, asides).thread.handed) == Last(s.thread.handed)
  {
    if asides != [] {
      var before, e := asides[..|asides| - 1], asides[|asides| - 1];
      AsidesCallNothing(s, before);
      var t := After(s, before).thread;
      match e
      case Give(what) => LastOfMore(t.handed, Write(what));
      case Flush => LastOfMore(t.handed, Set);
      case Run(turn) => TurnsHandNothing(t, e);
    }
  }

  lemma AnActShows(s: State, act: Act)
    requires s.pauses == map[] && ToBeShown(s) && !Quits(act)
    ensures ToBeShown(After(s, EventsOf(act)))
  {
    var es := EventsOf(act);
    match act
    case Ask(meanwhile) =>
      AfterAsked(s, meanwhile);
      AsidesPauseNothing(Asked(s), meanwhile);
      if s.display.Some? {
        LastOfMore(After(Asked(s), meanwhile).thread.handed, Show(s.display.value));
      }
    case Outside(aside) =>
      assert [aside][..0] == [] && After(s, es) == Next(s, es[0]);
      assert EventsOf(act) == [aside];
      var asides: seq<Aside> := [aside];
      AsidesCallNothing(s, asides);
      AsidesPauseNothing(s, asides);
    case Enter =>
      assert es[..0] == [] && After(s, es) == Next(s, Open);
      LastOfMore(s.thread.handed, Show(s.made));
    case Leave =>
      assert es[..0] == [] && After(s, es) == Next(s, Close);
  }

  lemma {:induction false} BetweenPromptsItIsToBeShown(acts: seq<Act>)
    requires NoneQuits(acts)
    ensures ToBeShown(After(INIT, Program(acts)))
  {
    if acts != [] {
      var before := acts[..|acts| - 1];
      BetweenPromptsItIsToBeShown(before);
      TheProgramIsNested(before);
      AnActShows(After(INIT, Program(before)), acts[|acts| - 1]);
      AfterBoth(INIT, Program(before), EventsOf(acts[|acts| - 1]));
    }
  }

  /**
   Within its block, but for prompts, the display is up once what was handed over is
   written, before the first prompt as after the last; unless it has failed to draw.
   */
  lemma TheDisplayComesBack(acts: seq<Act>)
    requires NoneQuits(acts)
    requires var s := After(INIT, Program(acts)); s.display.Some? && s.thread.writes == []
    ensures var s := After(INIT, Program(acts));
      s.thread.up == {s.display.value} || HasFailed(s.thread.draws, s.display.value)
  {
    var s := After(INIT, Program(acts));
    BetweenPromptsItIsToBeShown(acts);
    PromptsHappen(acts, []);
    EveryRunIsNested(Program(acts));
    ADisplayIsUpOrHasFailed(Program(acts));
    RunsKeep(Program(acts));
    assert s.thread.executed + [] == s.thread.executed;
  }

  /** Nothing is to be up. */
  predicate ShowsNone(last: Option<Call>) {
    last.None? || last.value.Hide?
  }

  lemma {:induction false} LastShowsNone(calls: seq<Call>, position: nat)
    requires position <= |calls| && NoShowFrom(calls, position) && ShowsNone(Last(calls[..position]))
    ensures ShowsNone(Last(calls))
  {
    if position < |calls| {
      var front := calls[..|calls| - 1];
      assert front[..position] == calls[..position];
      LastShowsNone(front, position);
    } else {
      assert calls[..position] == calls;
    }
  }

  lemma {:induction false} AsidesShowNothing(s: State, asides: seq<Aside>)
    ensures var calls := After(s, asides).thread.handed;
      && |s.thread.handed| <= |calls| && calls[..|s.thread.handed|] == s.thread.handed
      && NoShowFrom(calls, |s.thread.handed|)
  {
    if asides != [] {
      AsidesShowNothing(s, asides[..|asides| - 1]);
      TurnsHandNothing(After(s, asides[..|asides| - 1]).thread, asides[|asides| - 1]);
    }
  }

  lemma AskingHides(s: State)
    requires ClientsOk(s) && s.pauses == map[]
    ensures ShowsNone(Last(Asked(s).thread.handed)) && s.thread.handed <= Asked(s).thread.handed
  {
    var calls := s.thread.handed;
    LastOfMore(calls, Set);
    if s.display.Some? {
      LastOfMore(calls + [Set], Hide(s.display.value));
      LastOfMore(calls + [Set] + [Hide(s.display.value)], Set);
    }
  }

  /**
   At a prompt, from when the flushes that `ask` waits for are over until it ends: all the
   output from before it is written, and no display is up, whatever else goes on.
   */
  lemma APromptHasTheTerminal(acts: seq<Act>, meanwhile: seq<Aside>)
    requires var t := After(INIT, Program(acts) + ([Flush, Begin(0)] + meanwhile)).thread;
      |Asked(After(INIT, Program(acts))).thread.handed| <= |t.executed|
    ensures var t := After(INIT, Program(acts) + ([Flush, Begin(0)] + meanwhile)).thread;
      After(INIT, Program(acts)).thread.handed <= t.executed && t.up == {}
  {
    hide Inv, ClientsOk, ShowsItsTurn, Next;
    var s, es := After(INIT, Program(acts)), Program(acts) + ([Flush, Begin(0)] + meanwhile);
    AfterBoth(INIT, Program(acts), [Flush, Begin(0)] + meanwhile);
    AfterAsked(s, meanwhile);
    PromptsHappen(acts, meanwhile);
    EveryRunIsNested(Program(acts));
    EveryRunIsNested(es);
    NestedRunsKeep(Program(acts));
    NestedRunsKeep(es);
    TheProgramIsNested(acts);
    AskingHides(s);
    var t, settled := After(INIT, es).thread, Asked(s).thread.handed;
    AsidesShowNothing(Asked(s), meanwhile);
    HiddenSince(t, settled);
  }

  lemma HiddenSince(t: Thread, settled: seq<Call>)
    requires Inv(t) && ShowsItsTurn(t)
    requires settled <= t.handed && NoShowFrom(t.handed, |settled|) && ShowsNone(Last(settled))
    requires |settled| <= |t.executed|
    ensures settled <= t.executed && t.up == {}
  {
    assert t.executed == t.handed[..|t.executed|];
    assert t.executed[..|settled|] == settled;
    LastShowsNone(t.executed, |settled|);
  }

  lemma PromptsHappen(acts: seq<Act>, meanwhile: seq<Aside>)
    ensures Happens(Program(acts)) && Happens(Program(acts) + ([Flush, Begin(0)] + meanwhile))
  {
    assert Program(acts) <= Program(acts);
    var more := acts + [Ask(meanwhile)];
    assert more[..|more| - 1] == acts;
    assert Program(acts) + ([Flush, Begin(0)] + meanwhile) <= Program(more);
  }
}
