/**
 The worker job's shell program: its port loop, the status it publishes, and how the
 tunnel reads that status back.
 */
module WorkerScript {
  import opened Prelude
  import opened Text

  // The status record

  /** `WorkerReady`, `WorkerFailed` or `WorkerStopped`. */
  datatype Status = Ready(port: nat) | Failed(reason: string) | Stopped(exitStatus: nat)

  datatype WorkerError = InvalidRecord | NonNumericPort | UnexpectedPort

  /** What `publish_state` writes after the token: the state's name, then its fields. */
  type Record = words: seq<string> | words != [] witness ["ready"]

  function Line(token: string, record: Record): string {
    Joined([token] + record, " ") + "\n"
  }

  /** What `publish_state` prints into its temporary file. */
  method PrintedState(token: string, state: string, fields: seq<string>) returns (content: string)
    ensures content == Line(token, [state] + fields)
  {
    content := token + " " + state;
    assert ([token] + [state])[1..] == [state];
    assert [token] + ([state] + fields[..0]) == [token] + [state];
    for i := 0 to |fields|
      invariant content == Joined([token] + ([state] + fields[..i]), " ")
    {
      JoinedEnds([token] + ([state] + fields[..i]), fields[i], " ");
      assert [token] + ([state] + fields[..i]) + [fields[i]] == [token] + ([state] + fields[..i + 1]);
      content := content + " " + fields[i];
    }
    assert fields[..|fields|] == fields;
    content := content + "\n";
  }

  // Reading it back

  predicate SingleUnderscores(s: string) {
    forall i :: 0 <= i < |s| && s[i] == '_' ==> 0 < i < |s| - 1 && s[i - 1] != '_'
  }

  predicate Plain(body: string) {
    forall c :: c in body ==> IsDigit(c) || c == '_'
  }

  /** Digits, with single underscores between them. */
  predicate IsBody(body: string) {
    body != "" && SingleUnderscores(body) && Plain(body)
  }

  function WithoutUnderscores(s: string): (digits: string)
    ensures Plain(s) ==> AllDigits(digits)
    ensures '_' !in s ==> digits == s
  {
    if s == "" then ""
    else if s[0] == '_' then WithoutUnderscores(s[1..])
    else [s[0]] + WithoutUnderscores(s[1..])
  }

  /** `int(field)`, of a field without white space; None for a ValueError. */
  function ParseInt(field: string): Option<int> {
    var body := if field != "" && field[0] in {'+', '-'} then field[1..] else field;
    if IsBody(body) then
      var magnitude: int := Value(WithoutUnderscores(body));
      Some(if field[0] == '-' then -magnitude else magnitude)
    else None
  }

  lemma ParseDecimal(n: nat)
    ensures ParseInt(Decimal(n)) == Some(n)
  {
    DecimalReadsBack(n);
    assert Decimal(n)[0] in Decimal(n);
  }

  /** `_ready_port`. */
  function ReadyPort(ports: set<nat>, field: string): Result<Status, WorkerError> {
    match ParseInt(field)
    case None => Err(NonNumericPort)
    case Some(port) => if port >= 0 && port in ports then Ok(Ready(port)) else Err(UnexpectedPort)
  }

  /** What `read_status` makes of the fields of the status file. */
  function StatusOf(token: string, ports: set<nat>, fields: seq<string>): Result<Option<Status>, WorkerError> {
    if |fields| == 0 || fields[0] != token then Err(InvalidRecord)
    else
      var record := fields[1..];
      if |record| == 2 && record[0] == "ready" then
        match ReadyPort(ports, record[1])
        case Ok(status) => Ok(Some(status))
        case Err(error) => Err(error)
      else if |record| >= 1 && record[0] == "failed" then
        var reason := Joined(record[1..], " ");
        Ok(Some(Failed(if reason != "" then reason else "worker startup failed")))
      else if |record| == 2 && record[0] == "stopped" && record[1] != "" && AllDigits(record[1]) then
        Ok(Some(Stopped(Value(record[1]))))
      else Err(InvalidRecord)
  }

  /** `read_status`: None until the worker has written one. */
  function ReadStatus(token: string, ports: set<nat>, content: Option<string>): Result<Option<Status>, WorkerError> {
    if content.None? then Ok(None) else StatusOf(token, ports, Fields(content.value))
  }

  /** The record in which the worker publishes a status. */
  function RecordOf(status: Status): Record {
    match status
    case Ready(port) => ["ready", Decimal(port)]
    case Failed(reason) => ["failed", reason]
    case Stopped(exitStatus) => ["stopped", Decimal(exitStatus)]
  }

  lemma StateNamesAreWords()
    ensures IsWord("ready") && IsWord("failed") && IsWord("stopped")
    ensures IsWord("no_ports") && IsWord("watchdog_start_failed")
  {
    VisibleIsWord("ready");
    VisibleIsWord("failed");
    VisibleIsWord("stopped");
    VisibleIsWord("no_ports");
    VisibleIsWord("watchdog_start_failed");
  }

  /** A line's fields are what it was made of. */
  lemma LineReadsBack(token: string, record: Record)
    requires IsWord(token) && forall i :: 0 <= i < |record| ==> IsWord(record[i])
    ensures Fields(Line(token, record)) == [token] + record
  {
    FieldsOfJoined([token] + record, "\n");
    SpaceBefore('\n', "");
    assert ['\n'] + "" == "\n";
    assert [token] + record + [] == [token] + record;
  }

  lemma NumberReadsBack(token: string, ports: set<nat>, n: nat)
    ensures n in ports ==> StatusOf(token, ports, [token, "ready", Decimal(n)]) == Ok(Some(Ready(n)))
    ensures StatusOf(token, ports, [token, "stopped", Decimal(n)]) == Ok(Some(Stopped(n)))
  {
    DecimalReadsBack(n);
    ParseDecimal(n);
    assert [token, "ready", Decimal(n)][1..] == ["ready", Decimal(n)];
    assert [token, "stopped", Decimal(n)][1..] == ["stopped", Decimal(n)];
  }

  lemma RecordReadsBack(token: string, ports: set<nat>, status: Status)
    requires IsWord(token)
    requires status.Ready? ==> status.port in ports
    requires status.Failed? ==> IsWord(status.reason)
    ensures ReadStatus(token, ports, Some(Line(token, RecordOf(status)))) == Ok(Some(status))
  {
    var record := RecordOf(status);
    StateNamesAreWords();
    if status.Failed? {
      assert [token, "failed", status.reason][1..] == record && record[1..] == [status.reason];
    } else {
      var n := if status.Ready? then status.port else status.exitStatus;
      DecimalIsWord(n);
      NumberReadsBack(token, ports, n);
    }
    LineReadsBack(token, record);
    assert [token] + record == [token, record[0], record[1]];
  }

  /**
   Exactly when a file reads as `ready`: it holds the token, the word, and a number
   that is one of this run's ports.
   */
  lemma ReadyMeansAListedPort(token: string, ports: set<nat>, content: string, port: nat)
    ensures ReadStatus(token, ports, Some(content)) == Ok(Some(Ready(port))) <==>
            && port in ports
            && |Fields(content)| == 3 && Fields(content)[..2] == [token, "ready"]
            && ParseInt(Fields(content)[2]) == Some(port)
  {
    var fields := Fields(content);
    if |fields| == 3 {
      assert fields[..2] == [fields[0], fields[1]];
      assert fields[1..] == [fields[1], fields[2]];
    }
  }

  /**
   And as `failed`: it holds the token and the word, and the reason is the words after it,
   if there are any.
   */
  lemma FailedMeansItSaysSo(token: string, ports: set<nat>, content: string, reason: string)
    ensures var fields := Fields(content);
      ReadStatus(token, ports, Some(content)) == Ok(Some(Failed(reason))) <==>
        && |fields| >= 2 && fields[..2] == [token, "failed"]
        && reason == if |fields| == 2 then "worker startup failed" else Joined(fields[2..], " ")
  {
    var fields := Fields(content);
    FieldsAreNotEmpty(content);
    if |fields| >= 2 {
      assert fields[..2] == [fields[0], fields[1]];
      assert fields[1..][1..] == fields[2..];
    }
    if |fields| > 2 {
      assert fields[2..][0] != "";
    }
  }

  /** And as `stopped`: it holds the token, the word, and the exit status, in digits alone. */
  lemma StoppedMeansItSaysSo(token: string, ports: set<nat>, content: string, exitStatus: nat)
    ensures var fields := Fields(content);
      ReadStatus(token, ports, Some(content)) == Ok(Some(Stopped(exitStatus))) <==>
        && |fields| == 3 && fields[..2] == [token, "stopped"]
        && AllDigits(fields[2]) && Value(fields[2]) == exitStatus
  {
    var fields := Fields(content);
    FieldsAreNotEmpty(content);
    if |fields| == 3 {
      assert fields[..2] == [fields[0], fields[1]] && fields[1..] == [fields[1], fields[2]];
    }
  }

  /**
   Otherwise an error is raised: about the port of a `ready` record, if it is no number or no
   port of this run, and else about the record. There is no status only while there is no file.
   */
  lemma WhatIsRaised(token: string, ports: set<nat>, content: string)
    ensures var fields, r := Fields(content), ReadStatus(token, ports, Some(content));
      var ready := |fields| == 3 && fields[..2] == [token, "ready"];
      && (r == Err(NonNumericPort) <==> ready && ParseInt(fields[2]) == None)
      && (r == Err(UnexpectedPort) <==>
            ready && ParseInt(fields[2]).Some? && !(exists port <- ports :: ParseInt(fields[2]) == Some(port)))
      && (r == Err(InvalidRecord) <==>
            && !ready
            && !(|fields| >= 2 && fields[..2] == [token, "failed"])
            && !(|fields| == 3 && fields[..2] == [token, "stopped"] && AllDigits(fields[2])))
      && r != Ok(None) && ReadStatus(token, ports, None) == Ok(None)
  {
    var fields := Fields(content);
    FieldsAreNotEmpty(content);
    if |fields| >= 2 {
      assert fields[..2] == [fields[0], fields[1]];
    }
    if |fields| == 3 {
      assert fields[1..] == [fields[1], fields[2]];
    }
  }

  // What `int` reads

  ghost predicate AreGroups(groups: seq<string>) {
    groups != [] && forall i :: 0 <= i < |groups| ==> groups[i] != "" && AllDigits(groups[i])
  }

  /** A sign or none, and groups of digits with an underscore between each two. */
  ghost predicate IsInteger(field: string, sign: string, groups: seq<string>) {
    sign in {"", "+", "-"} && AreGroups(groups) && field == sign + Joined(groups, "_")
  }

  function Together(groups: seq<string>): (digits: string)
    ensures AreGroups(groups) ==> AllDigits(digits)
  {
    if groups == [] then "" else groups[0] + (if |groups| == 1 then "" else Together(groups[1..]))
  }

  lemma {:induction false} DigitsStay(digits: string, more: string)
    requires AllDigits(digits)
    ensures WithoutUnderscores(digits + more) == digits + WithoutUnderscores(more)
  {
    if digits == "" {
      assert digits + more == more;
    } else {
      var all, rest := digits + more, digits[1..];
      assert digits[0] in digits && all[0] == digits[0] && all[1..] == rest + more;
      DigitsStay(rest, more);
      assert [digits[0]] + (rest + WithoutUnderscores(more)) == digits + WithoutUnderscores(more);
    }
  }

  lemma OneGroup(digits: string)
    requires digits != "" && AllDigits(digits)
    ensures IsBody(digits)
  {
    assert forall i :: 0 <= i < |digits| ==> digits[i] in digits;
  }

  lemma PlainParts(digits: string, rest: string)
    requires AllDigits(digits)
    ensures Plain(digits + "_" + rest) <==> Plain(rest)
  {
    var all := digits + "_" + rest;
    assert forall c :: c in rest ==> c in all;
    assert forall c :: c in all ==> c in digits || c == '_' || c in rest;
  }

  lemma UnderscoresApart(digits: string, rest: string)
    requires digits != "" && AllDigits(digits)
    ensures SingleUnderscores(digits + "_" + rest) <==> rest != "" && SingleUnderscores(rest)
  {
    var all, n := digits + "_" + rest, |digits| + 1;
    assert forall i :: 0 <= i < |digits| ==> all[i] == digits[i] && digits[i] in digits;
    assert all[n - 1] == '_' && all[n..] == rest;
    assert forall i :: n <= i < |all| ==> all[i] == rest[i - n];
    if SingleUnderscores(all) {
      forall i | 0 <= i < |rest| && rest[i] == '_'
        ensures 0 < i < |rest| - 1 && rest[i - 1] != '_'
      {
        assert all[n + i] == '_';
      }
    }
  }

  /** A group, an underscore, and what is left. */
  lemma GroupBefore(digits: string, rest: string)
    requires digits != "" && AllDigits(digits)
    ensures IsBody(digits + "_" + rest) <==> IsBody(rest)
  {
    hide SingleUnderscores;
    PlainParts(digits, rest);
    UnderscoresApart(digits, rest);
  }

  lemma {:induction false} GroupsAreBody(groups: seq<string>)
    requires AreGroups(groups)
    ensures IsBody(Joined(groups, "_")) && WithoutUnderscores(Joined(groups, "_")) == Together(groups)
  {
    var first := groups[0];
    if |groups| == 1 {
      OneGroup(first);
      DigitsStay(first, "");
      assert first + "" == first;
    } else {
      var rest := Joined(groups[1..], "_");
      GroupsAreBody(groups[1..]);
      GroupBefore(first, rest);
      DigitsStay(first, "_" + rest);
      assert first + "_" + rest == first + ("_" + rest) && ("_" + rest)[1..] == rest;
    }
  }

  lemma {:induction false} BodyIsGroups(body: string) returns (groups: seq<string>)
    requires IsBody(body)
    ensures AreGroups(groups) && Joined(groups, "_") == body
    decreases |body|
  {
    var n := Before(body, {'_'});
    var first := body[..n];
    assert n > 0 by {
      assert body[0] == '_' ==> 0 < 0;
    }
    assert forall c :: c in first ==> c in body && c != '_';
    if n == |body| {
      groups := [body];
    } else {
      var rest := body[n + 1..];
      assert body == first + "_" + rest;
      GroupBefore(first, rest);
      groups := BodyIsGroups(rest);
      groups := [first] + groups;
    }
  }

  function Signed(sign: string, groups: seq<string>): int
    requires AreGroups(groups)
  {
    var magnitude: int := Value(Together(groups));
    if sign == "-" then -magnitude else magnitude
  }

  /** Exactly what `int` reads of a field, and as what. */
  lemma IntegersAreRead(field: string, n: int)
    ensures ParseInt(field) == Some(n)
       <==> exists sign, groups :: IsInteger(field, sign, groups) && n == Signed(sign, groups)
  {
    if ParseInt(field) == Some(n) {
      var sign, groups := ReadIsInteger(field);
    }
    if sign, groups :| IsInteger(field, sign, groups) && n == Signed(sign, groups) {
      SignedIsRead(field, sign, groups);
    }
  }

  lemma ReadIsInteger(field: string) returns (sign: string, groups: seq<string>)
    requires ParseInt(field).Some?
    ensures IsInteger(field, sign, groups) && ParseInt(field) == Some(Signed(sign, groups))
  {
    hide IsBody, AreGroups, Joined, Together, WithoutUnderscores;
    sign := if field != "" && field[0] in {'+', '-'} then [field[0]] else "";
    groups := BodyIsGroups(field[|sign|..]);
    GroupsAreBody(groups);
    assert field == sign + field[|sign|..];
  }

  lemma SignedIsRead(field: string, sign: string, groups: seq<string>)
    requires IsInteger(field, sign, groups)
    ensures ParseInt(field) == Some(Signed(sign, groups))
  {
    var body := Joined(groups, "_");
    GroupsAreBody(groups);
    assert body[0] in body;
    assert sign == "" ==> field == body;
    assert sign != "" ==> field[0] == sign[0] && field[1..] == body;
  }

  /** The lines that are read and written. */
  lemma TheLines(token: string, port: nat, exitStatus: nat)
    ensures Line(token, RecordOf(Ready(port))) == LineOf(token, "ready", Decimal(port))
    ensures Line(token, RecordOf(Stopped(exitStatus))) == LineOf(token, "stopped", Decimal(exitStatus))
    ensures Line(token, RecordOf(Failed("no_ports"))) == LineOf(token, "failed", "no_ports")
    ensures Line(token, RecordOf(Failed("watchdog_start_failed"))) == LineOf(token, "failed", "watchdog_start_failed")
  {
    hide Line, LineOf;
    LineOfThree(token, "ready", Decimal(port));
    LineOfThree(token, "stopped", Decimal(exitStatus));
    LineOfThree(token, "failed", "no_ports");
    LineOfThree(token, "failed", "watchdog_start_failed");
  }

  function LineOf(token: string, state: string, field: string): string {
    token + " " + state + " " + field + "\n"
  }

  lemma LineOfThree(token: string, state: string, field: string)
    ensures Line(token, [state, field]) == LineOf(token, state, field)
  {
    calc {
      Joined([token] + [state, field], " ");
      { assert ([token] + [state, field])[1..] == [state, field]; }
      token + " " + Joined([state, field], " ");
      { assert [state, field][1..] == [field]; }
      token + " " + (state + " " + field);
      token + " " + state + " " + field;
    }
  }

  // The worker's run

  /**
   How one `publish_state` ends: the record is in place; the function reports a
   failure, with the record in place or not; or a signal ends the script before or
   after the record gets there.
   */
  datatype Publication = Done | Failing(moved: bool) | Interrupted(moved: bool) {
    predicate Moved() { Done? || moved }
  }

  /** What the world makes of one port's sshd. */
  datatype Attempt =
    | Dies                                    // within the first 0.1 seconds
    | SignalledAtStart
    | Stays(ready: Publication, after: After)

  datatype After =
    | SignalledWhileArming
    | NoWatchdog(failed: Publication)         // it could not be started
    | SignalledWhileServing
    | Exits(exitStatus: nat, stopped: Publication)

  function InPlace(p: Publication, status: Status): seq<Status> {
    if p.Moved() then [status] else []
  }

  /** What gets published once `port`'s sshd has not died at once. */
  function Published(port: nat, attempt: Attempt): seq<Status> {
    if !attempt.Stays? then []
    else
      var ready := InPlace(attempt.ready, Ready(port));
      if !attempt.ready.Done? then ready
      else
        match attempt.after
        case NoWatchdog(failed) => ready + InPlace(failed, Failed("watchdog_start_failed"))
        case Exits(exitStatus, stopped) => ready + InPlace(stopped, Stopped(exitStatus))
        case _ => ready
  }

  /** The first attempt whose sshd does not die at once. */
  function FirstUp(attempts: seq<Attempt>): (n: nat)
    ensures n <= |attempts|
    ensures forall i :: 0 <= i < n ==> attempts[i].Dies?
    ensures n < |attempts| ==> !attempts[n].Dies?
  {
    if attempts == [] || !attempts[0].Dies? then 0 else 1 + FirstUp(attempts[1..])
  }

  function Decimals(ports: seq<nat>): (decimals: seq<string>)
    ensures |decimals| == |ports|
    ensures forall i :: 0 <= i < |ports| ==> decimals[i] == Decimal(ports[i])
  {
    seq(|ports|, i requires 0 <= i < |ports| => Decimal(ports[i]))
  }

  /** The worker command's `ports` argument; None for the ValueError. */
  function PortsArgument(ports: seq<nat>): Option<string> {
    if ports == [] then None else Some(Joined(Decimals(ports), ":"))
  }

  /** It lists the ports, which it raises for want of. */
  lemma ThePortsArgument(ports: seq<nat>, last: nat)
    ensures PortsArgument([]) == None && PortsArgument([last]) == Some(Decimal(last))
    ensures ports != [] ==>
      PortsArgument(ports).Some?
      && PortsArgument(ports + [last]) == Some(PortsArgument(ports).value + ":" + Decimal(last))
  {
    assert Decimals([last]) == [Decimal(last)];
    if ports != [] {
      assert Decimals(ports + [last]) == Decimals(ports) + [Decimal(last)];
      JoinedEnds(Decimals(ports), Decimal(last), ":");
    }
  }

  lemma NoColon(n: nat)
    ensures ':' !in Decimal(n) && Decimal(n) != ""
  {
    DecimalReadsBack(n);
  }

  /** One turn's split of `ports` at its first colon. */
  lemma {:induction false} FirstPort(listed: seq<nat>)
    requires listed != []
    ensures var ports := Joined(Decimals(listed), ":");
            var end := Before(ports, {':'});
            && ports != ""
            && ports[..end] == Decimal(listed[0])
            && (|listed| == 1 <==> end == |ports|)
            && (|listed| > 1 ==> ports[end + 1..] == Joined(Decimals(listed[1..]), ":"))
  {
    var first := Decimal(listed[0]);
    NoColon(listed[0]);
    if |listed| == 1 {
      BeforeWord(first, "", {':'});
      assert first + "" == first;
    } else {
      var tail := Joined(Decimals(listed[1..]), ":");
      assert Decimals(listed)[1..] == Decimals(listed[1..]);
      assert Joined(Decimals(listed), ":") == first + (":" + tail);
      BeforeWord(first, ":" + tail, {':'});
    }
  }

  /** The rest of the loop's body: the script does not come back from it. */
  method Serve(port: string, ghost number: nat, attempt: Attempt) returns (published: seq<seq<string>>)
    requires port == Decimal(number) && !attempt.Dies?
    ensures published == Records(Published(number, attempt))
  {
    published := [];
    if attempt.SignalledAtStart? {
      return;
    }
    if attempt.ready.Moved() {
      published := published + [["ready", port]];
    }
    if !attempt.ready.Done? {
      return;
    }
    match attempt.after {
      case NoWatchdog(failed) =>
        if failed.Moved() {
          published := published + [["failed", "watchdog_start_failed"]];
        }
      case Exits(exitStatus, stopped) =>
        if stopped.Moved() {
          published := published + [["stopped", Decimal(exitStatus)]];
        }
      case _ =>
    }
  }

  /** The port before the first colon, and what is left after it. */
  method TakePort(ports: string, ghost listed: seq<nat>) returns (port: string, left: string)
    requires ports == Joined(Decimals(listed), ":") && ports != ""
    ensures listed != [] && port == Decimal(listed[0]) && left == Joined(Decimals(listed[1..]), ":")
    ensures |left| < |ports|
  {
    FirstPort(listed);
    var colon := Before(ports, {':'});
    return ports[..colon], if colon < |ports| then ports[colon + 1..] else "";
  }

  /**
   The worker's script from its port loop on, given the `ports` argument for the
   ports in `listed`, what happens to each attempt, and to the last publication. What
   it tries, and the statuses it puts in place, in turn.
   */
  method RunWorker(ports: string, ghost listed: seq<nat>, attempts: seq<Attempt>, noPorts: Publication)
    returns (tried: seq<string>, published: seq<seq<string>>)
    requires PortsArgument(listed) == Some(ports)
    requires |attempts| == |listed|
    ensures FirstUp(attempts) < |listed| ==>
              && tried == Decimals(listed[..FirstUp(attempts) + 1])
              && published == Records(Published(listed[FirstUp(attempts)], attempts[FirstUp(attempts)]))
    ensures FirstUp(attempts) == |listed| ==>
              && tried == Decimals(listed)
              && published == Records(InPlace(noPorts, Failed("no_ports")))
    ensures published == Records(Life(listed, attempts, noPorts))
  {
    var left, i := ports, 0;
    tried, published := [], [];
    while left != ""
      invariant 0 <= i <= |listed|
      invariant left == Joined(Decimals(listed[i..]), ":")
      invariant tried == Decimals(listed[..i]) && published == []
      invariant forall j :: 0 <= j < i ==> attempts[j].Dies?
      decreases |left|
    {
      ghost var was := i;
      assert listed[was..][1..] == listed[was + 1..];
      var port;
      port, left := TakePort(left, listed[was..]);
      var attempt := attempts[i];
      tried, i := tried + [port], i + 1;
      assert tried == Decimals(listed[..was + 1]);
      if attempt.Dies? {
        continue;
      }
      assert FirstUp(attempts) == was;
      published := Serve(port, listed[was], attempt);
      return;
    }
    if i < |listed| {
      FirstPort(listed[i..]);
    }
    assert listed[..i] == listed && FirstUp(attempts) == |listed|;
    if noPorts.Moved() {
      published := published + [["failed", "no_ports"]];
    }
  }

  function Records(statuses: seq<Status>): (records: seq<seq<string>>)
    ensures |records| == |statuses|
    ensures forall i :: 0 <= i < |statuses| ==> records[i] == RecordOf(statuses[i])
  {
    seq(|statuses|, i requires 0 <= i < |statuses| => RecordOf(statuses[i]))
  }

  // What the tunnel makes of it

  /** What one worker that was given `ports` may publish. */
  ghost predicate Lifecycle(ports: seq<nat>, statuses: seq<Status>) {
    || statuses <= [Failed("no_ports")]
    || exists i :: 0 <= i < |ports| && Serves(ports[i], statuses)
  }

  ghost predicate Serves(port: nat, statuses: seq<Status>) {
    || statuses <= [Ready(port), Failed("watchdog_start_failed")]
    || exists exitStatus: nat :: statuses <= [Ready(port), Stopped(exitStatus)]
  }

  /** Whatever the world does, the worker publishes the beginning of a life. */
  lemma WorkersLive(ports: seq<nat>, attempts: seq<Attempt>, noPorts: Publication)
    requires ports != [] && |attempts| == |ports|
    ensures var up := FirstUp(attempts);
            Lifecycle(ports, if up < |ports| then Published(ports[up], attempts[up])
                             else InPlace(noPorts, Failed("no_ports")))
  {
    var up := FirstUp(attempts);
    if up < |ports| {
      var statuses := Published(ports[up], attempts[up]);
      if attempts[up].Stays? && attempts[up].after.Exits? {
        var exitStatus := attempts[up].after.exitStatus;
        assert statuses <= [Ready(ports[up]), Stopped(exitStatus)];
      }
      assert Serves(ports[up], statuses);
    }
  }

  /** All that the worker publishes. */
  function Life(ports: seq<nat>, attempts: seq<Attempt>, noPorts: Publication): seq<Status>
    requires |attempts| == |ports|
  {
    var up := FirstUp(attempts);
    if up < |ports| then Published(ports[up], attempts[up]) else InPlace(noPorts, Failed("no_ports"))
  }

  /** The record is in place, whether that was noticed or not. */
  predicate GotThere(p: Publication) {
    p in {Done, Failing(true), Interrupted(true)}
  }

  /** The `i`th port's sshd is the first that stays up for a moment. */
  ghost predicate ComesUp(attempts: seq<Attempt>, i: nat) {
    i < |attempts| && attempts[i] != Dies && forall j :: 0 <= j < i ==> attempts[j] == Dies
  }

  /** What makes the worker publish a status, of one port's life. */
  predicate Deserves(port: nat, attempt: Attempt, status: Status) {
    match status
    case Ready(p) => p == port && attempt.Stays? && GotThere(attempt.ready)
    case Stopped(n) =>
      && attempt.Stays? && attempt.ready == Done
      && attempt.after.Exits? && attempt.after.exitStatus == n && GotThere(attempt.after.stopped)
    case Failed(reason) =>
      && reason == "watchdog_start_failed" && attempt.Stays? && attempt.ready == Done
      && attempt.after.NoWatchdog? && GotThere(attempt.after.failed)
  }

  lemma InPlaceIfThere(p: Publication, status: Status, other: Status)
    ensures other in InPlace(p, status) <==> other == status && GotThere(p)
  {
  }

  lemma PublishedDeserved(port: nat, attempt: Attempt, status: Status)
    requires attempt != Dies
    ensures status in Published(port, attempt) <==> Deserves(port, attempt, status)
  {
    if attempt.Stays? {
      InPlaceIfThere(attempt.ready, Ready(port), status);
      match attempt.after
      case NoWatchdog(failed) => InPlaceIfThere(failed, Failed("watchdog_start_failed"), status);
      case Exits(exitStatus, stopped) => InPlaceIfThere(stopped, Stopped(exitStatus), status);
      case _ =>
    }
  }

  lemma FirstUpComesUp(attempts: seq<Attempt>, i: nat)
    ensures ComesUp(attempts, i) <==> i == FirstUp(attempts) && i < |attempts|
  {
    var up := FirstUp(attempts);
    if ComesUp(attempts, i) && up < |attempts| {
      assert attempts[up] != Dies;
    }
  }

  /**
   `ready` is published exactly if a port's sshd stays up and its record gets there;
   `stopped` exactly if that sshd has exited, after a `ready` that succeeded, with its exit
   status; and the failures exactly if there is no watchdog, or no port.
   */
  lemma WhatIsPublished(ports: seq<nat>, attempts: seq<Attempt>, noPorts: Publication, status: Status)
    requires |attempts| == |ports|
    ensures status in Life(ports, attempts, noPorts) <==>
      || (exists i :: 0 <= i < |ports| && ComesUp(attempts, i) && Deserves(ports[i], attempts[i], status))
      || ((forall i :: 0 <= i < |attempts| ==> attempts[i] == Dies)
          && status == Failed("no_ports") && GotThere(noPorts))
  {
    var up := FirstUp(attempts);
    InPlaceIfThere(noPorts, Failed("no_ports"), status);
    forall i | 0 <= i < |attempts|
      ensures ComesUp(attempts, i) <==> i == up
    {
      FirstUpComesUp(attempts, i);
    }
    if up < |ports| {
      assert attempts[up] != Dies;
      PublishedDeserved(ports[up], attempts[up], status);
    }
  }

  /** With nothing interrupted, what the tunnel reads in the end is that sshd stopped, and its own exit status. */
  lemma TheExitStatusIsRead(
    token: string, ports: seq<nat>, attempts: seq<Attempt>, noPorts: Publication, i: nat, exitStatus: nat)
    requires IsWord(token) && |attempts| == |ports|
    requires ComesUp(attempts, i) && attempts[i] == Stays(Done, Exits(exitStatus, Done))
    ensures var life := Life(ports, attempts, noPorts);
      && life == [Ready(ports[i]), Stopped(exitStatus)]
      && ReadStatus(token, (set port | port in ports), StatusFile(token, life, |life|)) == Ok(Some(Stopped(exitStatus)))
  {
    FirstUpComesUp(attempts, i);
    RecordReadsBack(token, (set port | port in ports), Stopped(exitStatus));
  }

  /** The status file once `k` records have been put in place. */
  function StatusFile(token: string, statuses: seq<Status>, k: nat): Option<string>
    requires k <= |statuses|
  {
    if k == 0 then None else Some(Line(token, RecordOf(statuses[k - 1])))
  }

  /**
   At every moment of every worker's life the tunnel reads, without an error, the
   status published last; `ready` comes first and once, with a port it listed, and
   nothing comes after `stopped` or `failed`.
   */
  lemma EveryReadingIsUnderstood(token: string, ports: seq<nat>, statuses: seq<Status>, k: nat)
    requires IsWord(token) && Lifecycle(ports, statuses) && k <= |statuses|
    ensures ReadStatus(token, (set port | port in ports), StatusFile(token, statuses, k))
         == Ok(if k == 0 then None else Some(statuses[k - 1]))
    ensures 0 < k && statuses[k - 1].Ready? ==> k == 1 && statuses[0].port in ports
    ensures 0 < k && !statuses[k - 1].Ready? ==> k == |statuses| && k <= 2
  {
    if k > 0 {
      var status := statuses[k - 1];
      StateNamesAreWords();
      RecordReadsBack(token, (set port | port in ports), status);
    }
  }
}
