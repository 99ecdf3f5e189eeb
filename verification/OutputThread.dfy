/** The thread that writes the console's output, and the live display that it draws. */
module OutputThread {
  import opened Prelude

  /** What is handed over: a record to write, a display to show or hide, or a flush's event to set. */
  datatype Call = Write(what: nat) | Show(display: nat) | Hide(display: nat) | Set

  /** A display was drawn, or failed to be. */
  datatype Draw = Draw(display: nat, ok: bool)

  /** One turn of the thread's loop, as the world has it. */
  datatype Turn = Turn(
    got: bool,        // the queue's `get` returned a call, rather than time out
    started: bool,    // a display to be shown could be drawn
    due: bool,        // it is time to redraw
    redrawn: bool)    // which succeeds

  datatype Thread = Thread(
    writes: seq<Call>,
    live: Option<nat>,
    failed: Option<nat>,
    handed: seq<Call>, executed: seq<Call>,   // all so far
    draws: seq<Draw>,
    up: set<nat>)                             // the displays started and not stopped

  const BEGIN: Thread := Thread([], None, None, [], [], [], {})

  function Given(t: Thread, call: Call): Thread {
    t.(writes := t.writes + [call], handed := t.handed + [call])
  }

  function Shown(t: Thread, display: nat, started: bool): Thread {
    if t.live.Some? || t.failed == Some(display) then t
    else if !started then t.(failed := Some(display), draws := t.draws + [Draw(display, false)])
    else t.(live := Some(display), draws := t.draws + [Draw(display, true)], up := t.up + {display})
  }

  function Hidden(t: Thread, display: nat): Thread {
    if t.live != Some(display) then t else t.(live := None, up := t.up - {display})
  }

  function Redrawn(t: Thread, ok: bool): Thread
    requires t.live.Some?
  {
    var display := t.live.value;
    if ok then t.(draws := t.draws + [Draw(display, true)])
    else t.(live := None, failed := Some(display), draws := t.draws + [Draw(display, false)], up := t.up - {display})
  }

  function Called(t: Thread, started: bool): Thread
    requires t.writes != []
  {
    var call := t.writes[0];
    var after := t.(writes := t.writes[1..], executed := t.executed + [call]);
    match call
    case Show(display) => Shown(after, display, started)
    case Hide(display) => Hidden(after, display)
    case _ => after
  }

  function Turned(t: Thread, turn: Turn): Thread {
    var u := if turn.got && t.writes != [] then Called(t, turn.started) else t;
    if u.live.Some? && turn.due then Redrawn(u, turn.redrawn) else u
  }

  // Those who hand over

  /** Inside `live_display_paused`: the display it hid, if any, and the position of its flush among what was handed over. */
  datatype Pause = Pause(display: Option<nat>, flush: nat)

  /** `_live`, which is the display of the block it is in; how many there were; and the pauses that there are. */
  datatype State = State(thread: Thread, display: Option<nat>, made: nat, pauses: map<nat, Pause>)

  datatype Event =
    | Give(what: nat)
    | Open                  // `live_display`, on a terminal
    | Close                 // its end
    | Begin(pause: nat)     // `live_display_paused`, up to its flush
    | End(pause: nat)       // its end
    | HideNow               // `hide_live_display`
    | Flush
    | Run(turn: Turn)

  function Next(s: State, e: Event): State {
    match e
    case Give(what) => s.(thread := Given(s.thread, Write(what)))
    case Open =>
      if s.display.Some? then s
      else s.(display := Some(s.made), made := s.made + 1, thread := Given(s.thread, Show(s.made)))
    case Close =>
      if s.display.None? then s
      else s.(display := None, thread := Given(s.thread, Hide(s.display.value)))
    case Begin(p) =>
      if p in s.pauses then s
      else if s.display.None? then s.(pauses := s.pauses[p := Pause(None, 0)])
      else
        var t := Given(s.thread, Hide(s.display.value));
        s.(pauses := s.pauses[p := Pause(s.display, |t.handed|)], thread := Given(t, Set))
    case End(p) =>
      if p !in s.pauses then s
      else
        var display := s.pauses[p].display;
        s.(pauses := s.pauses - {p}, thread := if display.None? then s.thread else Given(s.thread, Show(display.value)))
    case HideNow =>
      if s.display.None? then s else s.(thread := Given(s.thread, Hide(s.display.value)))
    case Flush => s.(thread := Given(s.thread, Set))
    case Run(turn) => s.(thread := Turned(s.thread, turn))
  }

  const INIT: State := State(BEGIN, None, 0, map[])

  function After(s: State, es: seq<Event>): State {
    if es == [] then s else Next(After(s, es[..|es| - 1]), es[|es| - 1])
  }

  // In every run

  /** Every call is made once, in order: those made, then those waiting, are those handed over. */
  ghost predicate Queued(t: Thread) {
    t.executed + t.writes == t.handed
  }

  /** At most one display is up: the one shown. */
  ghost predicate OneUp(t: Thread) {
    && t.up == (if t.live.Some? then {t.live.value} else {})
    && (t.live.Some? ==> t.live != t.failed)
  }

  function LastFailed(draws: seq<Draw>): Option<nat> {
    if draws == [] then None
    else if !draws[|draws| - 1].ok then Some(draws[|draws| - 1].display)
    else LastFailed(draws[..|draws| - 1])
  }

  /** A display drawn is not the last that had failed by then. */
  ghost predicate NotAgain(draws: seq<Draw>, k: nat)
    requires k < |draws|
  {
    Some(draws[k].display) != LastFailed(draws[..k])
  }

  ghost predicate FailuresKept(t: Thread) {
    && t.failed == LastFailed(t.draws)
    && forall k :: 0 <= k < |t.draws| ==> NotAgain(t.draws, k)
  }

  ghost predicate Inv(t: Thread) {
    Queued(t) && OneUp(t) && FailuresKept(t)
  }

  lemma Drawn(draws: seq<Draw>, d: Draw)
    requires forall k :: 0 <= k < |draws| ==> NotAgain(draws, k)
    requires Some(d.display) != LastFailed(draws)
    ensures LastFailed(draws + [d]) == if d.ok then LastFailed(draws) else Some(d.display)
    ensures forall k :: 0 <= k < |draws + [d]| ==> NotAgain(draws + [d], k)
  {
    var all := draws + [d];
    assert all[..|draws|] == draws;
    forall k | 0 <= k < |all|
      ensures NotAgain(all, k)
    {
      assert all[..k] == draws[..k];
      assert k < |draws| ==> NotAgain(draws, k);
    }
  }

  lemma ShownKeeps(t: Thread, display: nat, started: bool)
    requires Inv(t)
    ensures Inv(Shown(t, display, started))
  {
    if t.live.None? && t.failed != Some(display) {
      Drawn(t.draws, Draw(display, started));
    }
  }

  lemma RedrawnKeeps(t: Thread, ok: bool)
    requires Inv(t) && t.live.Some?
    ensures Inv(Redrawn(t, ok))
  {
    Drawn(t.draws, Draw(t.live.value, ok));
  }

  lemma CalledKeeps(t: Thread, started: bool)
    requires Inv(t) && t.writes != []
    ensures Inv(Called(t, started))
  {
    var call := t.writes[0];
    var after := t.(writes := t.writes[1..], executed := t.executed + [call]);
    assert t.writes == [call] + t.writes[1..];
    assert after.executed + after.writes == t.executed + t.writes;
    if call.Show? {
      ShownKeeps(after, call.display, started);
    }
  }

  lemma TurnedKeeps(t: Thread, turn: Turn)
    requires Inv(t)
    ensures Inv(Turned(t, turn))
  {
    var u := if turn.got && t.writes != [] then Called(t, turn.started) else t;
    if turn.got && t.writes != [] {
      CalledKeeps(t, turn.started);
    }
    if u.live.Some? && turn.due {
      RedrawnKeeps(u, turn.redrawn);
    }
  }

  lemma GivenKeeps(t: Thread, call: Call)
    requires Inv(t)
    ensures Inv(Given(t, call))
  {
    assert t.executed + (t.writes + [call]) == t.executed + t.writes + [call];
  }

  lemma NextKeeps(s: State, e: Event)
    requires Inv(s.thread)
    ensures Inv(Next(s, e).thread)
  {
    if e.Run? {
      TurnedKeeps(s.thread, e.turn);
    } else {
      forall call
        ensures Inv(Given(s.thread, call))
      {
        GivenKeeps(s.thread, call);
      }
      if e.Begin? && s.display.Some? {
        GivenKeeps(Given(s.thread, Hide(s.display.value)), Set);
      }
    }
  }

  lemma {:induction false} RunsKeep(es: seq<Event>)
    ensures Inv(After(INIT, es).thread)
  {
    if es != [] {
      RunsKeep(es[..|es| - 1]);
      NextKeeps(After(INIT, es[..|es| - 1]), es[|es| - 1]);
    } else {
      assert LastFailed([]) == None;
    }
  }

  /** A flush whose event is set came after all that was handed over before it. */
  lemma FlushedMeansWritten(es: seq<Event>, position: nat)
    requires var t := After(INIT, es).thread; position < |t.executed| && position < |t.handed| && t.handed[position] == Set
    ensures var t := After(INIT, es).thread;
            position < |t.handed| && t.handed[..position] <= t.executed && t.executed <= t.handed
  {
    RunsKeep(es);
    var t := After(INIT, es).thread;
    assert t.executed == t.handed[..|t.executed|];
    assert t.handed[..position] == t.executed[..position];
  }

  /** Between two draws of a display, the first of which failed, another display failed. */
  lemma AFailedDisplayIsNotDrawnNext(es: seq<Event>, j: nat, k: nat)
    requires var draws := After(INIT, es).thread.draws;
             j < k < |draws| && draws[j].display == draws[k].display && !draws[j].ok
    ensures var draws := After(INIT, es).thread.draws;
            exists i :: j < i < k && !draws[i].ok && draws[i].display != draws[k].display
  {
    RunsKeep(es);
    FailureBetween(After(INIT, es).thread.draws, j, k);
  }

  lemma FailureBetween(draws: seq<Draw>, j: nat, k: nat)
    requires j < k < |draws| && draws[j].display == draws[k].display && !draws[j].ok && NotAgain(draws, k)
    ensures exists i :: j < i < k && !draws[i].ok && draws[i].display != draws[k].display
  {
    var i := FailedLast(draws, k, j);
  }

  lemma {:induction false} FailedLast(draws: seq<Draw>, k: nat, j: nat) returns (i: nat)
    requires j < k <= |draws| && !draws[j].ok
    ensures j <= i < k && !draws[i].ok && LastFailed(draws[..k]) == Some(draws[i].display)
  {
    i := k - 1;
    assert draws[..k][..i] == draws[..i];
    if draws[i].ok {
      i := FailedLast(draws, i, j);
    }
  }

  // That a display is drawn

  /** The display shown, unless this turn's call hides it, is redrawn when that is due; one that fails is taken down. */
  lemma RedrawnWhenDue(t: Thread, turn: Turn)
    requires Inv(t) && t.live.Some? && turn.due
    requires turn.got && t.writes != [] ==> t.writes[0] != Hide(t.live.value)
    ensures var u := Turned(t, turn);
            && u.draws == t.draws + [Draw(t.live.value, turn.redrawn)]
            && u.live == (if turn.redrawn then t.live else None)
            && u.up == (if turn.redrawn then {t.live.value} else {})
            && (!turn.redrawn ==> u.failed == t.live)
  {
  }

  /** A display is drawn as it is shown, unless another one is up, or it was the last to fail. */
  lemma DrawnWhenShown(t: Thread, turn: Turn)
    requires Inv(t) && turn.got && t.writes != [] && t.writes[0].Show? && !turn.due
    ensures var u, display := Turned(t, turn), t.writes[0].display;
            if t.live.Some? || t.failed == Some(display) then u.draws == t.draws && u.live == t.live
            else
              && u.draws == t.draws + [Draw(display, turn.started)]
              && u.live == (if turn.started then Some(display) else None)
              && u.up == (if turn.started then {display} else {})
  {
  }

  /** In every run: what is shown is drawn again whenever that is due. */
  lemma DisplaysAreKeptDrawn(es: seq<Event>, turn: Turn)
    requires var t := After(INIT, es).thread;
             && t.live.Some? && turn.due
             && (turn.got && t.writes != [] ==> t.writes[0] != Hide(t.live.value))
    ensures var t, u := After(INIT, es).thread, After(INIT, es + [Run(turn)]).thread;
            && u.draws == t.draws + [Draw(t.live.value, turn.redrawn)]
            && u.up == (if turn.redrawn then {t.live.value} else {})
  {
    RunsKeep(es);
    RedrawnWhenDue(After(INIT, es).thread, turn);
    assert (es + [Run(turn)])[..|es|] == es;
  }

  // With every pause inside the block of the display it hides

  ghost predicate Nested(s: State, e: Event) {
    e.Close? ==> forall p <- s.pauses :: s.pauses[p].display.None?
  }

  ghost predicate AllNested(es: seq<Event>) {
    forall k :: 0 <= k < |es| ==> NestedAt(es, k)
  }

  ghost predicate NestedAt(es: seq<Event>, k: nat)
    requires k < |es|
  {
    Nested(After(INIT, es[..k]), es[k])
  }

  predicate ForDisplay(call: Call) {
    call.Show? || call.Hide?
  }

  /** The last call about a display. */
  function Last(calls: seq<Call>): (last: Option<Call>)
    ensures last.Some? ==> ForDisplay(last.value)
  {
    if calls == [] then None
    else if ForDisplay(calls[|calls| - 1]) then Some(calls[|calls| - 1])
    else Last(calls[..|calls| - 1])
  }

  /** What may be handed over after `last`: about the same display, or a later one once that is hidden. */
  predicate MayFollow(last: Option<Call>, call: Call) {
    ForDisplay(call) && last.Some? && ForDisplay(last.value) ==>
      || call.display == last.value.display
      || (last.value.Hide? && last.value.display < call.display)
  }

  ghost predicate InTurn(calls: seq<Call>, k: nat)
    requires k < |calls|
  {
    MayFollow(Last(calls[..k]), calls[k])
  }

  /** The displays are handed over one after another. */
  ghost predicate AllInTurn(calls: seq<Call>) {
    forall k :: 0 <= k < |calls| ==> InTurn(calls, k)
  }

  ghost predicate ClientsOk(s: State) {
    var last := Last(s.thread.handed);
    && AllInTurn(s.thread.handed)
    && (s.display.Some? ==> last.Some? && last.value.display == s.display.value && s.display.value < s.made)
    && (s.display.None? && last.Some? ==> last.value.Hide? && last.value.display < s.made)
    && (forall p <- s.pauses :: s.pauses[p].display.Some? ==> s.pauses[p].display == s.display)
  }

  /** What is shown, or was drawn last, is what the thread was told to show. */
  ghost predicate ShowsItsTurn(t: Thread) {
    && (t.live.Some? ==> Last(t.executed) == Some(Show(t.live.value)))
    && (t.draws != [] ==> Last(t.executed).Some? && t.draws[|t.draws| - 1].display <= Last(t.executed).value.display)
    && (forall j, k :: 0 <= j < k < |t.draws| ==> t.draws[j].display <= t.draws[k].display)
  }

  lemma LastOfMore(calls: seq<Call>, call: Call)
    ensures Last(calls + [call]) == if ForDisplay(call) then Some(call) else Last(calls)
  {
    assert (calls + [call])[..|calls|] == calls;
  }

  lemma MoreInTurn(calls: seq<Call>, call: Call)
    requires AllInTurn(calls) && MayFollow(Last(calls), call)
    ensures AllInTurn(calls + [call])
  {
    var all := calls + [call];
    assert all[..|calls|] == calls;
    forall k | 0 <= k < |all|
      ensures InTurn(all, k)
    {
      assert all[..k] == calls[..k];
      assert k < |calls| ==> InTurn(calls, k);
    }
  }

  /** One more call that may follow. */
  lemma GivenInTurn(calls: seq<Call>, call: Call)
    requires AllInTurn(calls) && MayFollow(Last(calls), call)
    ensures AllInTurn(calls + [call])
    ensures Last(calls + [call]) == if ForDisplay(call) then Some(call) else Last(calls)
  {
    LastOfMore(calls, call);
    MoreInTurn(calls, call);
  }

  lemma ClientsStayOk(s: State, e: Event)
    requires ClientsOk(s) && Nested(s, e)
    ensures ClientsOk(Next(s, e))
  {
    var calls := s.thread.handed;
    match e
    case Give(what) => GivenInTurn(calls, Write(what));
    case Open => if s.display.None? { GivenInTurn(calls, Show(s.made)); }
    case Close => if s.display.Some? { GivenInTurn(calls, Hide(s.display.value)); }
    case Begin(p) =>
      if s.display.Some? {
        GivenInTurn(calls, Hide(s.display.value));
        GivenInTurn(calls + [Hide(s.display.value)], Set);
      }
    case End(p) =>
      if p in s.pauses && s.pauses[p].display.Some? {
        GivenInTurn(calls, Show(s.display.value));
      }
    case HideNow => if s.display.Some? { GivenInTurn(calls, Hide(s.display.value)); }
    case Flush => GivenInTurn(calls, Set);
    case Run(turn) => TurnsHandNothing(s.thread, e);
  }

  lemma TurnsHandNothing(t: Thread, e: Event)
    ensures e.Run? ==> Turned(t, e.turn).handed == t.handed
  {
  }

  lemma DrawnInTurn(t: Thread, display: nat, ok: bool)
    requires ShowsItsTurn(t)
    requires Last(t.executed).Some? && Last(t.executed).value.display == display
    ensures var draws := t.draws + [Draw(display, ok)];
            forall j, k :: 0 <= j < k < |draws| ==> draws[j].display <= draws[k].display
  {
  }

  lemma CalledInTurn(t: Thread, started: bool)
    requires Inv(t) && t.writes != [] && AllInTurn(t.handed) && ShowsItsTurn(t)
    ensures ShowsItsTurn(Called(t, started))
  {
    var call := t.writes[0];
    var after := t.(writes := t.writes[1..], executed := t.executed + [call]);
    assert t.handed[..|t.executed|] == t.executed && t.handed[|t.executed|] == call;
    assert InTurn(t.handed, |t.executed|);
    LastOfMore(t.executed, call);
    if call.Show? && t.live.None? {
      DrawnInTurn(after.(live := None), call.display, started);
    }
  }

  lemma TurnedInTurn(t: Thread, turn: Turn)
    requires Inv(t) && AllInTurn(t.handed) && ShowsItsTurn(t)
    ensures ShowsItsTurn(Turned(t, turn))
  {
    var u := if turn.got && t.writes != [] then Called(t, turn.started) else t;
    if turn.got && t.writes != [] {
      CalledInTurn(t, turn.started);
    }
    if u.live.Some? && turn.due {
      DrawnInTurn(u, u.live.value, turn.redrawn);
    }
  }

  lemma ThreadInTurn(s: State, e: Event)
    requires Inv(s.thread) && ClientsOk(s) && ShowsItsTurn(s.thread)
    ensures ShowsItsTurn(Next(s, e).thread)
  {
    if e.Run? {
      TurnedInTurn(s.thread, e.turn);
    }
  }

  lemma NestedBefore(es: seq<Event>)
    requires AllNested(es) && es != []
    ensures var before := es[..|es| - 1]; AllNested(before) && Nested(After(INIT, before), es[|es| - 1])
  {
    var before := es[..|es| - 1];
    forall k | 0 <= k < |before|
      ensures NestedAt(before, k)
    {
      assert es[..k] == before[..k];
      assert NestedAt(es, k);
    }
    assert NestedAt(es, |before|);
  }

  lemma {:induction false} NestedRunsKeep(es: seq<Event>)
    requires AllNested(es)
    ensures Inv(After(INIT, es).thread) && ClientsOk(After(INIT, es)) && ShowsItsTurn(After(INIT, es).thread)
  {
    RunsKeep(es);
    if es != [] {
      var before := es[..|es| - 1];
      NestedBefore(es);
      NestedRunsKeep(before);
      ClientsStayOk(After(INIT, before), es[|es| - 1]);
      ThreadInTurn(After(INIT, before), es[|es| - 1]);
    }
  }

  /** A display that failed to draw is never drawn again. */
  lemma AFailedDisplayIsNeverDrawnAgain(es: seq<Event>, j: nat, k: nat)
    requires AllNested(es)
    requires var draws := After(INIT, es).thread.draws; j < k < |draws| && !draws[j].ok
    ensures var draws := After(INIT, es).thread.draws; draws[j].display != draws[k].display
  {
    var draws := After(INIT, es).thread.draws;
    NestedRunsKeep(es);
    if draws[j].display == draws[k].display {
      AFailedDisplayIsNotDrawnNext(es, j, k);
      assert false;
    }
  }

  ghost predicate HasFailed(draws: seq<Draw>, display: nat) {
    exists k :: 0 <= k < |draws| && draws[k] == Draw(display, false)
  }

  /** The display last to be shown is up, or failed to be drawn. */
  ghost predicate UpOrFailed(t: Thread) {
    Last(t.executed).Some? && Last(t.executed).value.Show? ==>
      t.live == Some(Last(t.executed).value.display) || HasFailed(t.draws, Last(t.executed).value.display)
  }

  lemma FailedMore(draws: seq<Draw>, d: Draw, display: nat)
    ensures HasFailed(draws + [d], display) <==> HasFailed(draws, display) || d == Draw(display, false)
  {
    var all := draws + [d];
    if HasFailed(draws, display) {
      var k :| 0 <= k < |draws| && draws[k] == Draw(display, false);
      assert all[k] == Draw(display, false);
    }
    if d == Draw(display, false) {
      assert all[|draws|] == d;
    }
  }

  lemma {:induction false} LastFailedHasFailed(draws: seq<Draw>)
    ensures LastFailed(draws).Some? ==> HasFailed(draws, LastFailed(draws).value)
  {
    if draws != [] && draws[|draws| - 1].ok {
      LastFailedHasFailed(draws[..|draws| - 1]);
      if LastFailed(draws).Some? {
        FailedMore(draws[..|draws| - 1], draws[|draws| - 1], LastFailed(draws).value);
        assert draws == draws[..|draws| - 1] + [draws[|draws| - 1]];
      }
    }
  }

  lemma CalledUpOrFailed(t: Thread, started: bool)
    requires Inv(t) && t.writes != [] && AllInTurn(t.handed) && ShowsItsTurn(t) && UpOrFailed(t)
    ensures UpOrFailed(Called(t, started))
  {
    var call := t.writes[0];
    assert t.handed[..|t.executed|] == t.executed && t.handed[|t.executed|] == call;
    assert InTurn(t.handed, |t.executed|);
    LastOfMore(t.executed, call);
    LastFailedHasFailed(t.draws);
    if call.Show? {
      FailedMore(t.draws, Draw(call.display, started), call.display);
    }
  }

  lemma TurnedUpOrFailed(t: Thread, turn: Turn)
    requires Inv(t) && AllInTurn(t.handed) && ShowsItsTurn(t) && UpOrFailed(t)
    ensures UpOrFailed(Turned(t, turn))
  {
    var u := if turn.got && t.writes != [] then Called(t, turn.started) else t;
    if turn.got && t.writes != [] {
      CalledUpOrFailed(t, turn.started);
      CalledInTurn(t, turn.started);
    }
    if u.live.Some? && turn.due {
      FailedMore(u.draws, Draw(u.live.value, turn.redrawn), u.live.value);
    }
  }

  /** With pauses inside the display's block: a display that was last to be shown is up, unless it has failed to draw. */
  lemma {:induction false} ADisplayIsUpOrHasFailed(es: seq<Event>)
    requires AllNested(es)
    ensures UpOrFailed(After(INIT, es).thread)
  {
    if es != [] {
      var before, e := es[..|es| - 1], es[|es| - 1];
      NestedBefore(es);
      NestedRunsKeep(before);
      ADisplayIsUpOrHasFailed(before);
      if e.Run? {
        TurnedUpOrFailed(After(INIT, before).thread, e.turn);
      }
    }
  }

  /** Nothing that is handed over from then on shows a display. */
  ghost predicate NoShowFrom(calls: seq<Call>, position: nat) {
    forall i :: position <= i < |calls| ==> !calls[i].Show?
  }

  predicate Ends(e: Event) {
    e.End? || e.Close?
  }

  lemma {:induction false} NoShowMeanwhile(s: State, es: seq<Event>)
    requires s.display.Some? && forall i :: 0 <= i < |es| ==> !Ends(es[i])
    ensures var t := After(s, es);
            && t.display == s.display && |s.thread.handed| <= |t.thread.handed|
            && t.thread.handed[..|s.thread.handed|] == s.thread.handed
            && NoShowFrom(t.thread.handed, |s.thread.handed|)
  {
    if es != [] {
      NoShowMeanwhile(s, es[..|es| - 1]);
      TurnsHandNothing(After(s, es[..|es| - 1]).thread, es[|es| - 1]);
    }
  }

  lemma {:induction false} LastHides(calls: seq<Call>, position: nat)
    requires position <= |calls| && NoShowFrom(calls, position)
    requires Last(calls[..position]).Some? && Last(calls[..position]).value.Hide?
    ensures Last(calls).Some? && Last(calls).value.Hide?
  {
    if position < |calls| {
      var front := calls[..|calls| - 1];
      assert front[..position] == calls[..position];
      LastHides(front, position);
    } else {
      assert calls[..position] == calls;
    }
  }

  lemma {:induction false} AfterBoth(s: State, es: seq<Event>, more: seq<Event>)
    ensures After(s, es + more) == After(After(s, es), more)
  {
    if more == [] {
      assert es + more == es;
    } else {
      assert (es + more)[..|es + more| - 1] == es + more[..|more| - 1];
      AfterBoth(s, es, more[..|more| - 1]);
    }
  }

  /**
   During a pause of the display: once its flush is written, none is up until another
   pause, or the display's block, ends.
   */
  lemma NothingIsUpWhilePaused(es: seq<Event>, p: nat, more: seq<Event>)
    requires AllNested(es + [Begin(p)] + more) && forall i :: 0 <= i < |more| ==> !Ends(more[i])
    requires p !in After(INIT, es).pauses && After(INIT, es).display.Some?
    requires var begun := After(INIT, es + [Begin(p)]);
             var flush := begun.pauses[p].flush;
             flush < |After(INIT, es + [Begin(p)] + more).thread.executed|
    ensures After(INIT, es + [Begin(p)] + more).thread.up == {}
  {
    var s := After(INIT, es);
    var begun := After(INIT, es + [Begin(p)]);
    var end := After(INIT, es + [Begin(p)] + more).thread;
    assert (es + [Begin(p)])[..|es|] == es;
    AfterBoth(INIT, es + [Begin(p)], more);
    NoShowMeanwhile(begun, more);
    NestedRunsKeep(es + [Begin(p)] + more);
    var flush := begun.pauses[p].flush;
    var hidden := Hide(s.display.value);
    assert begun.thread.handed == s.thread.handed + [hidden] + [Set] && flush == |s.thread.handed| + 1;
    LastOfMore(s.thread.handed, hidden);
    LastOfMore(s.thread.handed + [hidden], Set);
    assert end.executed == end.handed[..|end.executed|];
    var settled := begun.thread.handed;
    assert |settled| == flush + 1 && end.executed[..|settled|] == settled;
    LastHides(end.executed, |settled|);
  }

  /** Outside every block, once all that was handed over is written, no display is left. */
  lemma NoDisplayOutlivesItsBlock(es: seq<Event>)
    requires AllNested(es)
    requires After(INIT, es).display.None? && After(INIT, es).thread.writes == []
    ensures After(INIT, es).thread.up == {}
  {
    var t := After(INIT, es).thread;
    NestedRunsKeep(es);
    assert t.executed + [] == t.executed;
  }

  /** A pause that ends after the display's block leaves the display up, with nobody to hide it. */
  lemma ALatePauseLeavesTheDisplay()
    ensures var s := After(INIT, [Open, Begin(0), Close, End(0)] + seq(5, _ => Run(PLAIN_TURN)));
            s.display.None? && s.pauses == map[] && s.thread.writes == [] && s.thread.up == {0}
  {
    var es := [Open, Begin(0), Close, End(0)];
    AfterBoth(INIT, es, seq(5, _ => Run(PLAIN_TURN)));
    assert es[..3][..2] == es[..2] && es[..2][..1] == es[..1] && es[..1][..0] == [];
    assert After(INIT, es[..1]) == Next(INIT, Open);
    assert After(INIT, es[..2]) == Next(After(INIT, es[..1]), Begin(0));
    assert After(INIT, es[..3]) == Next(After(INIT, es[..2]), Close);
    AfterTurns(After(INIT, es), PLAIN_TURN, 5);
    ShownLast(After(INIT, es).thread);
  }

  lemma ShownLast(t: Thread)
    requires t.writes == [Show(0), Hide(0), Set, Hide(0), Show(0)]
    requires t.live == None && t.failed == None && t.up == {}
    ensures Turns(t, PLAIN_TURN, 5).writes == [] && Turns(t, PLAIN_TURN, 5).up == {0}
  {
    var a := Turns(t, PLAIN_TURN, 2);
    assert Turns(t, PLAIN_TURN, 0) == t && Turns(t, PLAIN_TURN, 1) == Turned(t, PLAIN_TURN);
    assert a == Turned(Turned(t, PLAIN_TURN), PLAIN_TURN);
    assert a.writes == [Set, Hide(0), Show(0)] && a.live == None && a.failed == None;
    assert Turns(t, PLAIN_TURN, 3) == Turned(a, PLAIN_TURN) && Turns(t, PLAIN_TURN, 3).writes == [Hide(0), Show(0)];
    assert Turns(t, PLAIN_TURN, 4) == Turned(Turns(t, PLAIN_TURN, 3), PLAIN_TURN) && Turns(t, PLAIN_TURN, 4).writes == [Show(0)];
    assert Turns(t, PLAIN_TURN, 5) == Turned(Turns(t, PLAIN_TURN, 4), PLAIN_TURN);
  }

  const PLAIN_TURN: Turn := Turn(true, true, false, false)

  function Turns(t: Thread, turn: Turn, n: nat): Thread {
    if n == 0 then t else Turned(Turns(t, turn, n - 1), turn)
  }

  lemma {:induction false} AfterTurns(s: State, turn: Turn, n: nat)
    ensures After(s, seq(n, _ => Run(turn))) == s.(thread := Turns(s.thread, turn, n))
  {
    if n > 0 {
      var es := seq(n, _ => Run(turn));
      assert es[..n - 1] == seq(n - 1, _ => Run(turn));
      AfterTurns(s, turn, n - 1);
    }
  }

  /** A pause inside another brings the display back when it ends, before the other does. */
  lemma ANestedPauseShowsTheDisplay()
    ensures var s := After(INIT, [Open, Begin(0), Begin(1), End(1)] + seq(6, _ => Run(PLAIN_TURN)));
            && 0 in s.pauses && s.pauses[0] == Pause(Some(0), 2)
            && |s.thread.executed| > 2 && s.thread.up == {0}
  {
    var es := [Open, Begin(0), Begin(1), End(1)];
    AfterBoth(INIT, es, seq(6, _ => Run(PLAIN_TURN)));
    assert es[..3][..2] == es[..2] && es[..2][..1] == es[..1] && es[..1][..0] == [];
    assert After(INIT, es[..1]) == Next(INIT, Open);
    assert After(INIT, es[..2]) == Next(After(INIT, es[..1]), Begin(0));
    assert After(INIT, es[..3]) == Next(After(INIT, es[..2]), Begin(1));
    AfterTurns(After(INIT, es), PLAIN_TURN, 6);
    ShownAgain(After(INIT, es).thread);
  }

  lemma ShownAgain(t: Thread)
    requires t.writes == [Show(0), Hide(0), Set, Hide(0), Set, Show(0)]
    requires t.live == None && t.failed == None && t.executed == [] && t.up == {}
    ensures |Turns(t, PLAIN_TURN, 6).executed| == 6 && Turns(t, PLAIN_TURN, 6).up == {0}
  {
    var a := Turns(t, PLAIN_TURN, 2);
    assert Turns(t, PLAIN_TURN, 0) == t && Turns(t, PLAIN_TURN, 1) == Turned(t, PLAIN_TURN);
    assert a == Turned(Turned(t, PLAIN_TURN), PLAIN_TURN);
    assert a.writes == [Set, Hide(0), Set, Show(0)] && |a.executed| == 2 && a.live == None && a.failed == None;
    var b := Turns(t, PLAIN_TURN, 4);
    assert Turns(t, PLAIN_TURN, 3) == Turned(a, PLAIN_TURN);
    assert b == Turned(Turned(a, PLAIN_TURN), PLAIN_TURN);
    assert b.writes == [Set, Show(0)] && |b.executed| == 4 && b.live == None && b.failed == None;
    assert Turns(t, PLAIN_TURN, 5) == Turned(b, PLAIN_TURN);
    assert Turns(t, PLAIN_TURN, 6) == Turned(Turned(b, PLAIN_TURN), PLAIN_TURN);
  }
}
