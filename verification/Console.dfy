/** The output thread and those who use it, as the code updates their attributes. */
module Console {
  import opened Prelude
  import opened OutputThread

  class Output {
    // The thread was started, for the first that handed something over.
    var started: bool
    // The thread's.
    var writes: seq<Call>
    var live: Option<nat>
    // The last display whose drawing raised.
    var failed: Option<nat>
    // Whose block it is, outside the thread.
    var display: Option<nat>

    ghost var handed: seq<Call>
    ghost var executed: seq<Call>
    ghost var draws: seq<Draw>
    ghost var up: set<nat>
    // How many displays were made; and what each block that pauses remembers.
    var made: nat
    var pauses: map<nat, Pause>
    var handedOver: nat

    ghost function ThreadView(): Thread
      reads this
    {
      Thread(writes, live, failed, handed, executed, draws, up)
    }

    ghost function View(): State
      reads this
    {
      State(ThreadView(), display, made, pauses)
    }

    ghost predicate Valid()
      reads this
    {
      Inv(ThreadView()) && handedOver == |handed| && (!started ==> handed == [])
    }

    constructor ()
      ensures Valid() && View() == INIT
    {
      writes, live, failed, display, made, pauses, handedOver := [], None, None, None, 0, map[], 0;
      handed, executed, draws, up, started := [], [], [], {}, false;
      new;
      RunsKeep([]);
    }

    /** `write_later` */
    method WriteLater(call: Call)
      requires Valid()
      modifies this`started, this`writes, this`handed, this`handedOver
      ensures Valid() && ThreadView() == Given(old(ThreadView()), call)
    {
      started := true;
      GivenKeeps(ThreadView(), call);
      writes, handed, handedOver := writes + [call], handed + [call], handedOver + 1;
    }

    /** `_OutputThread.show`; `started` if the display can be drawn. */
    method ShowDisplay(display: nat, started: bool)
      modifies this`live, this`failed, this`draws, this`up
      ensures ThreadView() == Shown(old(ThreadView()), display, started)
    {
      if live.Some? || failed == Some(display) {
        return;
      }
      draws := draws + [Draw(display, started)];
      if !started {
        failed := Some(display);
        return;
      }
      live, up := Some(display), up + {display};
    }

    /** `_OutputThread.hide` */
    method HideDisplay(display: nat)
      modifies this`live, this`up
      ensures ThreadView() == Hidden(old(ThreadView()), display)
    {
      if live != Some(display) {
        return;
      }
      live, up := None, up - {display};
    }

    /** `_redraw` */
    method Redraw(ok: bool)
      requires live.Some?
      modifies this`live, this`failed, this`draws, this`up
      ensures ThreadView() == Redrawn(old(ThreadView()), ok)
    {
      draws := draws + [Draw(live.value, ok)];
      if ok {
        return;
      }
      up := up - {live.value};
      live, failed := None, live;
    }

    method CallNext(started: bool)
      requires writes != []
      modifies this`writes, this`executed, this`live, this`failed, this`draws, this`up
      ensures ThreadView() == Called(old(ThreadView()), started)
    {
      var call := writes[0];
      writes, executed := writes[1..], executed + [call];
      match call {
        case Show(display) => ShowDisplay(display, started);
        case Hide(display) => HideDisplay(display);
        case _ =>
      }
    }

    /** One turn of `run`. */
    method TakeTurn(turn: Turn)
      requires Valid()
      modifies this`writes, this`executed, this`live, this`failed, this`draws, this`up
      ensures Valid() && ThreadView() == Turned(old(ThreadView()), turn)
    {
      TurnedKeeps(ThreadView(), turn);
      TurnsHandNothing(ThreadView(), Run(turn));
      if turn.got && writes != [] {
        CallNext(turn.started);
      }
      if live.Some? && turn.due {
        Redraw(turn.redrawn);
      }
    }

    /** `live_display`, up to its `yield`; `terminal` is whether there is one, and not a dumb one. */
    method OpenDisplay(terminal: bool) returns (shown: bool)
      requires Valid()
      modifies this
      ensures Valid() && shown == (terminal && old(display).None?)
      ensures View() == if terminal then Next(old(View()), Open) else old(View())
    {
      if display.Some? || !terminal {
        return false;
      }
      display, made := Some(made), made + 1;
      WriteLater(Show(display.value));
      shown := true;
    }

    /** And from there on. */
    method CloseDisplay()
      requires Valid() && display.Some?
      modifies this
      ensures Valid() && View() == Next(old(View()), Close)
    {
      var shown := display.value;
      display := None;
      WriteLater(Hide(shown));
    }

    /** `live_display_paused`, up to its flush. */
    method PauseDisplay(pause: nat)
      requires Valid() && pause !in pauses
      modifies this
      ensures Valid() && View() == Next(old(View()), Begin(pause))
    {
      if display.None? {
        pauses := pauses[pause := Pause(None, 0)];
        return;
      }
      WriteLater(Hide(display.value));
      pauses := pauses[pause := Pause(display, handedOver)];
      WriteLater(Set);
    }

    /** And its end. */
    method ResumeDisplay(pause: nat)
      requires Valid() && pause in pauses
      modifies this
      ensures Valid() && View() == Next(old(View()), End(pause))
    {
      var paused := pauses[pause].display;
      pauses := pauses - {pause};
      if paused.Some? {
        WriteLater(Show(paused.value));
      }
    }

    /** `hide_live_display` */
    method HideLiveDisplay()
      requires Valid()
      modifies this
      ensures Valid() && View() == Next(old(View()), HideNow)
    {
      if display.Some? {
        WriteLater(Hide(display.value));
      }
    }

    method Handle(e: Event)
      requires Valid()
      modifies this
      ensures Valid() && View() == Next(old(View()), e)
    {
      match e {
        case Give(what) => WriteLater(Write(what));
        case Open => var _ := OpenDisplay(true);
        case Close => if display.Some? { CloseDisplay(); }
        case Begin(pause) => if pause !in pauses { PauseDisplay(pause); }
        case End(pause) => if pause in pauses { ResumeDisplay(pause); }
        case HideNow => HideLiveDisplay();
        case Flush => WriteLater(Set);
        case Run(turn) => TakeTurn(turn);
      }
    }

    /**
     `flush_output`, while what comes in `meanwhile` happens, until the timeout if
     that is not enough. True means that all that was handed over before is written,
     unless it is the output thread itself that asks.
     */
    method FlushOutput(byOutputThread: bool, meanwhile: seq<Event>)
      returns (written: bool, n: nat)
      requires Valid()
      modifies this
      ensures Valid()
      ensures byOutputThread || !old(started) ==> written && View() == old(View())
      ensures !byOutputThread && written ==> old(handed) <= executed
      ensures !byOutputThread && !written ==> executed <= old(handed)
      ensures n <= |meanwhile| && (!written ==> n == |meanwhile|)
      ensures !byOutputThread && old(started) ==> View() == After(Next(old(View()), Flush), meanwhile[..n])
    {
      if !started || byOutputThread {
        return true, 0;
      }
      ghost var before := handed;
      var position := handedOver;
      WriteLater(Set);
      written, n := Wait(position, before, meanwhile);
    }

    /** The event's `wait`. */
    method Wait(position: nat, ghost before: seq<Call>, meanwhile: seq<Event>) returns (written: bool, n: nat)
      requires Valid() && position == |before| && Begins(handed, before)
      modifies this
      ensures Valid() && (if written then before <= executed else executed <= before)
      ensures n <= |meanwhile| && (!written ==> n == |meanwhile|)
      ensures View() == After(old(View()), meanwhile[..n])
    {
      ghost var begin := View();
      n := 0;
      var calls := Executed();
      while n < |meanwhile| && calls <= position
        invariant Valid() && calls == |executed|
        invariant 0 <= n <= |meanwhile| && View() == After(begin, meanwhile[..n])
        invariant Begins(handed, before)
      {
        BeginsStill(View(), meanwhile[n], before);
        Handle(meanwhile[n]);
        assert meanwhile[..n + 1][..n] == meanwhile[..n];
        n := n + 1;
        calls := Executed();
      }
      written := calls > position;
      WrittenUpTo(ThreadView(), before);
    }

    /** How many calls were made. */
    method Executed() returns (n: nat)
      requires Valid()
      ensures n == |executed|
    {
      assert |executed| + |writes| == |handed|;
      n := handedOver - |writes|;
    }
  }

  /** A flush was handed over after `before`. */
  ghost predicate Begins(handed: seq<Call>, before: seq<Call>) {
    before + [Set] <= handed
  }

  lemma BeginsStill(s: State, e: Event, before: seq<Call>)
    requires Begins(s.thread.handed, before)
    ensures Begins(Next(s, e).thread.handed, before)
  {
    TurnsHandNothing(s.thread, e);
    assert s.thread.handed <= Next(s, e).thread.handed;
  }

  lemma WrittenUpTo(t: Thread, before: seq<Call>)
    requires Queued(t) && Begins(t.handed, before)
    ensures if |t.executed| > |before| then before <= t.executed else t.executed <= before
  {
    assert t.executed == t.handed[..|t.executed|] && before == t.handed[..|before|];
  }
}
