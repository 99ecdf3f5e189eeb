/**
 EzHPCy's loggers: what the logger's level and the output handler's filter leave out
 is what neither the terminal nor the file would write.
 */
module LogFilter {
  import opened Prelude
  import R = Replay

  const NOTSET := 0
  const DEBUG := 10
  const INFO := 20
  const WARNING := 30
  const CRITICAL := 50
  const REPLAYED_RECORDS := 1000

  /** What writes records: the terminal or a file, its level, and whether it shows asyncssh's. */
  datatype Output = Output(level: int, asyncssh: bool)

  datatype Settings = Settings(terminal: Option<Output>, file: Option<Output>) {
    function Outputs(): seq<int> {
      (if terminal.Some? then [terminal.value.level] else []) + (if file.Some? then [file.value.level] else [])
    }

    /** The levels of the handlers; a terminal brings the replay's with it, which is DEBUG. */
    function Handlers(): seq<int> {
      (if terminal.Some? then [DEBUG] else []) + (if file.Some? then [file.value.level] else [])
    }

    predicate ShowsAsyncssh() {
      (terminal.Some? && terminal.value.asyncssh) || (file.Some? && file.value.asyncssh)
    }
  }

  /** What the replay keeps, what the terminal and the current file have written, and the files before. */
  datatype State = State(
    settings: Settings, kept: seq<R.Record>, terminal: seq<R.Record>, file: seq<R.Record>, closed: seq<seq<R.Record>>)

  /** A record as loggers make them; asyncssh never logs above INFO, and its debug records are not wanted. */
  predicate IsRecord(r: R.Record) {
    r.level > 0 && (r.fromAsyncssh ==> r.level == 20 && !r.replayOnError)
  }

  function Lowest(levels: seq<int>, otherwise: int): int {
    if levels == [] then otherwise
    else if |levels| == 1 then levels[0]
    else var rest := Lowest(levels[1..], otherwise); if levels[0] < rest then levels[0] else rest
  }

  // Handing every record to every handler

  /** Those a handler's filter lets through. */
  function Passed(o: Output, records: seq<R.Record>): seq<R.Record> {
    if records == [] then []
    else Passed(o, records[..|records| - 1]) +
         (if records[|records| - 1].fromAsyncssh && !o.asyncssh then [] else [records[|records| - 1]])
  }

  function ToTerminal(o: Output, s: State, r: R.Record): State {
    var replay := R.Emitted(o.level, REPLAYED_RECORDS, R.State(s.kept, []), r);
    s.(kept := replay.kept, terminal := s.terminal + Passed(o, replay.handed))
  }

  /** Each handler takes the record, if it is at its level. */
  function HandedToAll(s: State, r: R.Record): State {
    var t := if s.settings.terminal.Some? && r.level >= DEBUG then ToTerminal(s.settings.terminal.value, s, r) else s;
    if s.settings.file.Some? && r.level >= s.settings.file.value.level
    then t.(file := t.file + Passed(s.settings.file.value, [r])) else t
  }

  // What is left out

  /** The level at which a logger works: one at NOTSET takes its parent's, the root logger's. */
  function EffectiveLevel(settings: Settings): int {
    var level := Lowest(settings.Handlers(), CRITICAL + 1);
    if level == NOTSET then WARNING else level
  }

  predicate Wanted(settings: Settings, r: R.Record) {
    if r.fromAsyncssh then settings.ShowsAsyncssh() && r.level >= INFO
    else r.level >= EffectiveLevel(settings)
  }

  predicate LeftOut(settings: Settings, r: R.Record) {
    r.level < Lowest(settings.Outputs(), NOTSET) && !r.replayOnError
  }

  function Logged(s: State, r: R.Record): State {
    if !Wanted(s.settings, r) || LeftOut(s.settings, r) then s else HandedToAll(s, r)
  }

  predicate FileAtNotset(settings: Settings) {
    settings.file.Some? && settings.file.value.level == NOTSET
  }

  lemma PassedOne(o: Output, r: R.Record)
    ensures Passed(o, [r]) == if r.fromAsyncssh && !o.asyncssh then [] else [r]
  {
    assert [r][..0] == [];
  }

  lemma LowestOf(settings: Settings)
    ensures var o := settings.Outputs(); var h := settings.Handlers();
            && (settings.terminal.Some? ==>
                  Lowest(o, NOTSET) <= settings.terminal.value.level && Lowest(h, CRITICAL + 1) <= DEBUG)
            && (settings.file.Some? ==>
                  Lowest(o, NOTSET) <= settings.file.value.level && Lowest(h, CRITICAL + 1) <= settings.file.value.level)
            && (Lowest(h, CRITICAL + 1) == NOTSET ==> FileAtNotset(settings))
  {
    var o, h := settings.Outputs(), settings.Handlers();
    if settings.terminal.Some? && settings.file.Some? {
      assert o[1..] == [settings.file.value.level] && h[1..] == [settings.file.value.level];
    }
  }

  /** A record that is not handed over would not have been written, or kept. */
  lemma NothingIsMissed(s: State, r: R.Record)
    requires IsRecord(r) && !FileAtNotset(s.settings)
    ensures Logged(s, r) == HandedToAll(s, r)
  {
    LowestOf(s.settings);
    if s.settings.terminal.Some? {
      PassedOne(s.settings.terminal.value, r);
    }
    if s.settings.file.Some? {
      PassedOne(s.settings.file.value, r);
    }
    assert s.terminal + [] == s.terminal && s.file + [] == s.file && [] + [] + [r] == [r];
  }

  /** Which holds exactly if the file is not at NOTSET. */
  lemma ExactlyAboveNotset(settings: Settings)
    ensures (forall s: State, r: R.Record :: s.settings == settings && IsRecord(r) ==> Logged(s, r) == HandedToAll(s, r))
            <==> !FileAtNotset(settings)
  {
    if FileAtNotset(settings) {
      var s, r := State(settings, [], [], [], []), R.Record(1, false, false, "");
      LowestOf(settings);
      AtNotset(settings);
      PassedOne(settings.file.value, r);
      assert Logged(s, r) == s && HandedToAll(s, r).file == [r];
    } else {
      forall s: State, r: R.Record | s.settings == settings && IsRecord(r)
        ensures Logged(s, r) == HandedToAll(s, r)
      {
        NothingIsMissed(s, r);
      }
    }
  }

  lemma AtNotset(settings: Settings)
    requires FileAtNotset(settings)
    ensures EffectiveLevel(settings) == WARNING
  {
    var h := settings.Handlers();
    if settings.terminal.Some? {
      assert h == [DEBUG, NOTSET] && h[1..] == [NOTSET];
      assert Lowest(h[1..], CRITICAL + 1) == NOTSET;
    } else {
      assert h == [NOTSET];
    }
  }

  // Over a whole run, with its settings changed as it goes

  datatype Event =
    | Log(record: R.Record)
    | ConfigureTerminal(terminal: Option<Output>)
    | ConfigureFile(level: Option<int>)

  function FileOutput(level: Option<int>): Option<Output> {
    if level.None? then None else Some(Output(level.value, level.value <= DEBUG))
  }

  function Configured(s: State, e: Event): State
    requires !e.Log?
  {
    match e
    case ConfigureTerminal(terminal) => s.(settings := s.settings.(terminal := terminal), kept := [])
    case ConfigureFile(level) =>
      s.(settings := s.settings.(file := FileOutput(level)), file := [], closed := s.closed + [s.file])
  }

  const BEGIN: State := State(Settings(None, None), [], [], [], [])

  function Run(es: seq<Event>): State {
    if es == [] then BEGIN
    else
      var s, e := Run(es[..|es| - 1]), es[|es| - 1];
      if e.Log? then Logged(s, e.record) else Configured(s, e)
  }

  function RunOfAll(es: seq<Event>): State {
    if es == [] then BEGIN
    else
      var s, e := RunOfAll(es[..|es| - 1]), es[|es| - 1];
      if e.Log? then HandedToAll(s, e.record) else Configured(s, e)
  }

  predicate IsPlain(e: Event) {
    match e
    case Log(record) => IsRecord(record)
    case ConfigureFile(level) => level != Some(NOTSET)
    case ConfigureTerminal(_) => true
  }

  lemma {:induction false} RunsWriteTheSame(es: seq<Event>)
    requires forall i :: 0 <= i < |es| ==> IsPlain(es[i])
    ensures Run(es) == RunOfAll(es) && !FileAtNotset(Run(es).settings)
  {
    if es != [] {
      RunsWriteTheSame(es[..|es| - 1]);
      var s, e := Run(es[..|es| - 1]), es[|es| - 1];
      if e.Log? {
        NothingIsMissed(s, e.record);
      }
    }
  }

  // What is written

  function AllHanded(s: State, records: seq<R.Record>): State {
    if records == [] then s else HandedToAll(AllHanded(s, records[..|records| - 1]), records[|records| - 1])
  }

  /** The records at the output's level, asyncssh's only if it shows them. */
  function Gets(o: Output, records: seq<R.Record>): seq<R.Record> {
    if records == [] then []
    else
      var r := records[|records| - 1];
      Gets(o, records[..|records| - 1]) + if r.level >= o.level && (r.fromAsyncssh ==> o.asyncssh) then [r] else []
  }

  /** What the replay before the terminal keeps and hands on, of the records from DEBUG up. */
  function Replayed(level: int, kept: seq<R.Record>, records: seq<R.Record>): R.State {
    if records == [] then R.State(kept, [])
    else
      var before, r := Replayed(level, kept, records[..|records| - 1]), records[|records| - 1];
      if r.level >= 10 then R.Emitted(level, 1000, before, r) else before
  }

  lemma {:induction false} PassedParts(o: Output, a: seq<R.Record>, b: seq<R.Record>)
    ensures Passed(o, a + b) == Passed(o, a) + Passed(o, b)
  {
    if b == [] {
      assert a + b == a;
    } else {
      assert (a + b)[..|a + b| - 1] == a + b[..|b| - 1];
      PassedParts(o, a, b[..|b| - 1]);
    }
  }

  /** A replay hands on, with what it handed on before, what it would from there. */
  lemma EmittedMore(level: int, kept: seq<R.Record>, handed: seq<R.Record>, r: R.Record)
    ensures var all, one := R.Emitted(level, 1000, R.State(kept, handed), r), R.Emitted(level, 1000, R.State(kept, []), r);
            all.kept == one.kept && all.handed == handed + one.handed
  {
    assert handed + kept + [r] == handed + ([] + kept + [r]);
    assert handed + [] == handed;
  }

  /** What the handlers do with one more record, after a replay handed `handed` on. */
  lemma OneMoreWritten(s: State, handed: seq<R.Record>, r: R.Record)
    ensures var t := HandedToAll(s, r);
            && t.settings == s.settings && t.closed == s.closed
            && t.file == s.file + (if s.settings.file.Some? && r.level >= s.settings.file.value.level
                                      && (r.fromAsyncssh ==> s.settings.file.value.asyncssh) then [r] else [])
            && (s.settings.terminal.None? || r.level < 10 ==> t.terminal == s.terminal && t.kept == s.kept)
    ensures s.settings.terminal.Some? && r.level >= 10 ==>
              var o, t := s.settings.terminal.value, HandedToAll(s, r);
              var replayed := R.Emitted(o.level, 1000, R.State(s.kept, handed), r);
              t.kept == replayed.kept && Passed(o, handed) + t.terminal[|s.terminal|..] == Passed(o, replayed.handed)
              && s.terminal <= t.terminal
  {
    hide R.Emitted, Passed;
    if s.settings.file.Some? {
      PassedOne(s.settings.file.value, r);
    }
    if s.settings.terminal.Some? {
      var o := s.settings.terminal.value;
      var now := R.Emitted(o.level, 1000, R.State(s.kept, []), r).handed;
      EmittedMore(o.level, s.kept, handed, r);
      PassedParts(o, handed, now);
      assert r.level >= 10 ==> HandedToAll(s, r).terminal == s.terminal + Passed(o, now);
    }
  }

  lemma Joined<T>(base: seq<T>, before: seq<T>, after: seq<T>, all: seq<T>)
    requires base + before <= after && before + after[|base + before|..] == all
    ensures after == base + all
  {
    assert after == base + before + after[|base + before|..];
  }

  /**
   With settings that stay, the file gets every record at its level, and the terminal what
   its replay hands on, each without asyncssh's unless it shows them.
   */
  lemma {:induction false} WhatIsWritten(s: State, records: seq<R.Record>)
    ensures var t := AllHanded(s, records);
            && t.settings == s.settings && t.closed == s.closed
            && t.file == s.file + (if s.settings.file.Some? then Gets(s.settings.file.value, records) else [])
            && if s.settings.terminal.None? then t.terminal == s.terminal && t.kept == s.kept
               else
                 var o := s.settings.terminal.value;
                 var replayed := Replayed(o.level, s.kept, records);
                 t.terminal == s.terminal + Passed(o, replayed.handed) && t.kept == replayed.kept
  {
    hide HandedToAll, R.Emitted, Passed;
    if records == [] {
      NothingPasses(s);
    } else {
      var before, r := records[..|records| - 1], records[|records| - 1];
      WhatIsWritten(s, before);
      var t := AllHanded(s, before);
      if s.settings.terminal.Some? {
        var o := s.settings.terminal.value;
        var handed := Replayed(o.level, s.kept, before).handed;
        OneMoreWritten(t, handed, r);
        if r.level >= 10 {
          Joined(s.terminal, Passed(o, handed), HandedToAll(t, r).terminal,
                 Passed(o, Replayed(o.level, s.kept, records).handed));
        }
      } else {
        OneMoreWritten(t, [], r);
      }
    }
  }

  lemma NothingPasses(s: State)
    ensures s.settings.terminal.Some? ==> s.terminal + Passed(s.settings.terminal.value, []) == s.terminal
    ensures s.file + [] == s.file
  {
  }

  function Logs(records: seq<R.Record>): seq<Event> {
    seq(|records|, i requires 0 <= i < |records| => Log(records[i]))
  }

  predicate AllRecords(records: seq<R.Record>) {
    forall i :: 0 <= i < |records| ==> IsRecord(records[i])
  }

  lemma {:induction false} LogsAreHanded(es: seq<Event>, records: seq<R.Record>)
    requires AllRecords(records) && !FileAtNotset(Run(es).settings)
    ensures Run(es + Logs(records)) == AllHanded(Run(es), records)
  {
    if records == [] {
      assert es + Logs(records) == es;
    } else {
      var before, r := records[..|records| - 1], records[|records| - 1];
      assert (es + Logs(records))[..|es + Logs(records)| - 1] == es + Logs(before);
      LogsAreHanded(es, before);
      WhatIsWritten(Run(es), before);
      NothingIsMissed(AllHanded(Run(es), before), r);
    }
  }

  /**
   After the terminal is configured, it gets what a replay that begins then hands on:
   nothing kept before comes out any more. What was written stays.
   */
  lemma TheTerminalBeginsAnew(es: seq<Event>, o: Output, records: seq<R.Record>)
    requires AllRecords(records) && !FileAtNotset(Run(es).settings)
    ensures var s, t := Run(es), Run(es + [ConfigureTerminal(Some(o))] + Logs(records));
            && t.terminal == s.terminal + Passed(o, Replayed(o.level, [], records).handed)
            && t.file == s.file + (if s.settings.file.Some? then Gets(s.settings.file.value, records) else [])
            && t.closed == s.closed
  {
    var configured := es + [ConfigureTerminal(Some(o))];
    assert configured[..|es|] == es;
    LogsAreHanded(configured, records);
    WhatIsWritten(Run(configured), records);
  }

  /** And another file gets the records from then on, and leaves the one before as it was. */
  lemma AnotherFileBegins(es: seq<Event>, level: int, records: seq<R.Record>)
    requires AllRecords(records) && level != NOTSET
    ensures var s, t := Run(es), Run(es + [ConfigureFile(Some(level))] + Logs(records));
            && t.file == Gets(Output(level, level <= 10), records)
            && t.closed == s.closed + [s.file]
            && t.terminal == s.terminal + (
                 if s.settings.terminal.None? then []
                 else
                   var o := s.settings.terminal.value;
                   Passed(o, Replayed(o.level, s.kept, records).handed))
  {
    var configured := es + [ConfigureFile(Some(level))];
    assert configured[..|es|] == es;
    LogsAreHanded(configured, records);
    WhatIsWritten(Run(configured), records);
  }

  /** Before anything is configured, nothing is written or kept. */
  lemma NothingIsWrittenBefore(records: seq<R.Record>)
    requires AllRecords(records)
    ensures Run(Logs(records)) == State(Settings(None, None), [], [], [], [])
  {
    assert [] + Logs(records) == Logs(records);
    LogsAreHanded([], records);
    WhatIsWritten(Run([]), records);
  }

  // The module's state, and its handlers'

  datatype HandlerName = TerminalReplay | FileHandler

  class Loggers {
    // `_terminal_handler`, `_terminal_enabled` and `_file_handler`.
    var terminalHandler: Option<Output>
    var terminalEnabled: bool
    var fileHandler: Option<Output>
    // `_output_handler`'s, and the two loggers'.
    var handlers: seq<HandlerName>
    var outputLevel: int
    var packageLevel: int
    var asyncsshAttached: bool
    // The replay's, and what is written.
    var kept: seq<R.Record>
    var terminal: seq<R.Record>
    var file: seq<R.Record>
    var closed: seq<seq<R.Record>>

    ghost function CurrentSettings(): Settings
      reads this
    {
      Settings(if terminalEnabled then terminalHandler else None, fileHandler)
    }

    ghost function View(): State
      reads this
    {
      State(CurrentSettings(), kept, terminal, file, closed)
    }

    ghost predicate Valid()
      reads this
    {
      && handlers == (if CurrentSettings().terminal.Some? then [TerminalReplay] else []) +
                     (if CurrentSettings().file.Some? then [FileHandler] else [])
      && outputLevel == Lowest(CurrentSettings().Outputs(), NOTSET)
      && packageLevel == Lowest(CurrentSettings().Handlers(), CRITICAL + 1)
      && asyncsshAttached == CurrentSettings().ShowsAsyncssh()
    }

    constructor ()
      ensures Valid() && View() == BEGIN
    {
      terminalHandler, terminalEnabled, fileHandler := None, true, None;
      handlers, outputLevel, packageLevel, asyncsshAttached := [], NOTSET, CRITICAL + 1, false;
      kept, terminal, file, closed := [], [], [], [];
    }

    /** `_update_handlers` */
    method UpdateHandlers()
      modifies this`handlers, this`outputLevel, this`packageLevel, this`asyncsshAttached
      ensures Valid()
    {
      var outputs: seq<int>, levels: seq<int> := [], [];
      handlers, asyncsshAttached := [], false;
      if terminalEnabled && terminalHandler.Some? {
        outputs, levels, handlers := [terminalHandler.value.level], [DEBUG], [TerminalReplay];
        asyncsshAttached := terminalHandler.value.asyncssh;
      }
      if fileHandler.Some? {
        outputs, levels := outputs + [fileHandler.value.level], levels + [fileHandler.value.level];
        handlers := handlers + [FileHandler];
        asyncsshAttached := asyncsshAttached || fileHandler.value.asyncssh;
      }
      outputLevel := Lowest(outputs, NOTSET);
      packageLevel := Lowest(levels, CRITICAL + 1);
    }

    /** `configure_logging` */
    method ConfigureLogging(level: int, debug: bool, enabled: bool)
      modifies this
      ensures Valid()
      ensures View() == Configured(old(View()), ConfigureTerminal(if enabled then Some(Output(level, debug)) else None))
    {
      terminalEnabled := enabled;
      kept := [];
      terminalHandler := Some(Output(level, debug));
      UpdateHandlers();
    }

    /** `configure_log_file`, with a directory if there is a level. */
    method ConfigureLogFile(level: Option<int>)
      modifies this
      ensures Valid() && View() == Configured(old(View()), ConfigureFile(level))
    {
      fileHandler := if level.None? then None else Some(Output(level.value, level.value <= DEBUG));
      closed, file := closed + [file], [];
      UpdateHandlers();
    }

    /** A logger's `log`, the output handler's `emit`, and `_write`. */
    method Log(record: R.Record)
      requires Valid()
      modifies this`kept, this`terminal, this`file
      ensures Valid() && View() == Logged(old(View()), record)
      ensures IsRecord(record) && !FileAtNotset(CurrentSettings()) ==> View() == HandedToAll(old(View()), record)
    {
      if IsRecord(record) && !FileAtNotset(CurrentSettings()) {
        NothingIsMissed(View(), record);
      }
      if record.fromAsyncssh {
        if !asyncsshAttached || record.level < INFO {
          return;
        }
      } else {
        var level := if packageLevel == NOTSET then WARNING else packageLevel;
        if record.level < level {
          return;
        }
      }
      if record.level < outputLevel && !record.replayOnError {
        return;
      }
      Write(record);
    }

    /** `_write` */
    method Write(record: R.Record)
      requires Valid()
      modifies this`kept, this`terminal, this`file
      ensures View() == HandedToAll(old(View()), record)
    {
      ghost var s := View();
      var i := 0;
      while i < |handlers|
        invariant 0 <= i <= |handlers|
        invariant View() == var t := if i > 0 && s.settings.terminal.Some? && record.level >= DEBUG
                                     then ToTerminal(s.settings.terminal.value, s, record) else s;
                            if i == |handlers| && s.settings.file.Some? && record.level >= s.settings.file.value.level
                            then t.(file := t.file + Passed(s.settings.file.value, [record])) else t
      {
        match handlers[i] {
          case TerminalReplay =>
            if record.level >= DEBUG {
              Replay(record);
            }
          case FileHandler =>
            if record.level >= fileHandler.value.level {
              file := file + Passed(fileHandler.value, [record]);
            }
        }
        i := i + 1;
      }
    }

    /** `_Replay.emit` */
    method Replay(record: R.Record)
      requires terminalHandler.Some?
      modifies this`kept, this`terminal
      ensures View() == ToTerminal(terminalHandler.value, old(View()), record)
    {
      var replay := R.Emitted(terminalHandler.value.level, REPLAYED_RECORDS, R.State(kept, []), record);
      kept := replay.kept;
      terminal := terminal + Passed(terminalHandler.value, replay.handed);
    }
  }
}
