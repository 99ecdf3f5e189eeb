/**
 The leases in the control directory: how the tunnel publishes them, and how the
 worker's watchdog finds the latest.
 */
module Leases {
  import opened Prelude
  import opened Text

  // Files

  /** A file in the control directory: a lease, one being written, or the worker's own. */
  datatype Name = Lease(sequence: nat) | Temporary(sequence: nat) | Foreign(name: string)

  /** What was written to a file: all of a lease's text, or any other. */
  datatype Content = Whole(token: string, sequence: nat) | Other(text: string)

  type Files = map<Name, Content>

  const PREFIX := "lease."

  function LeaseFile(sequence: nat): string {
    PREFIX + Padded(sequence, 20)
  }

  function FileName(name: Name): string {
    match name
    case Lease(sequence) => LeaseFile(sequence)
    case Temporary(sequence) => "." + LeaseFile(sequence) + ".tmp"
    case Foreign(name) => name
  }

  /** What the shell's `lease.*` matches: hidden files, which start with a dot, never. */
  predicate Globbed(file: string) {
    PREFIX <= file
  }

  predicate Listed(name: Name) {
    Globbed(FileName(name))
  }

  lemma LeaseFilesDiffer(a: nat, b: nat)
    ensures LeaseFile(a) == LeaseFile(b) ==> a == b
  {
    PaddedReadsBack(a, 20);
    PaddedReadsBack(b, 20);
    if LeaseFile(a) == LeaseFile(b) {
      assert LeaseFile(a)[|PREFIX|..] == Padded(a, 20);
      assert LeaseFile(b)[|PREFIX|..] == Padded(b, 20);
    }
  }

  /** The tunnel's files are told apart by their names, and only its leases are listed. */
  lemma TheTunnelsNames(a: Name, b: Name)
    requires !a.Foreign? && !b.Foreign?
    ensures FileName(a) == FileName(b) ==> a == b
    ensures Listed(a) <==> a.Lease?
    ensures a.Lease? ==> "lease." <= FileName(a) && AllDigits(FileName(a)[6..]) && |FileName(a)| >= 26
    ensures a.Lease? && |Decimal(a.sequence)| <= 20 ==> |FileName(a)| == 26
    ensures a.Temporary? ==> FileName(a) == "." + FileName(Lease(a.sequence)) + ".tmp"
  {
    PaddedReadsBack(a.sequence, 20);
    LeaseFilesDiffer(a.sequence, b.sequence);
    assert PREFIX[0] == 'l';
    if a.Lease? {
      assert FileName(a)[..|PREFIX|] == PREFIX;
    }
    if a.Temporary? && b.Temporary? && FileName(a) == FileName(b) {
      assert FileName(a)[1..|FileName(a)| - 4] == LeaseFile(a.sequence);
      assert FileName(b)[1..|FileName(b)| - 4] == LeaseFile(b.sequence);
    }
  }

  function Bytes(content: Content): string {
    match content
    case Whole(token, sequence) => token + " " + Decimal(sequence) + "\n"
    case Other(text) => text
  }

  // Publishing

  const RETAIN_COUNT := 2

  /**
   How one publication goes. `NotWritten`: opening or writing the temporary file
   failed, with as much of the lease in it as `part`, if it was opened.
   `NotRenamed`: renaming it failed. `Unanswered`: the rename took effect, but the
   tunnel hears only of a failure. `removed`: the temporary file was removed again; not
   if that failed too, or if the publication was cancelled.
   */
  datatype Attempt =
    | NotWritten(part: Option<string>, removed: bool)
    | NotRenamed(removed: bool)
    | Unanswered
    | Renamed(stale: Removal)

  /** How removing the oldest lease goes: an SFTP error is passed over, any other raised. */
  datatype Removal = Removed | Refused | Raised

  /** The tunnel's attributes, and the directory. */
  datatype Control = Control(token: string, sequence: nat, leases: seq<Name>, files: Files)

  function Tidied(files: Files, temporary: Name, content: Content, removed: bool): Files {
    if removed then files - {temporary} else files[temporary := content]
  }

  /** The directory after the lease was written and renamed, or not. */
  function Written(files: Files, token: string, sequence: nat, a: Attempt): Files {
    match a
    case NotWritten(part, removed) =>
      if part.Some? then Tidied(files, Temporary(sequence), Other(part.value), removed) else files
    case NotRenamed(removed) => Tidied(files, Temporary(sequence), Whole(token, sequence), removed)
    case _ => (files - {Temporary(sequence)})[Lease(sequence) := Whole(token, sequence)]
  }

  /** Of three leases, the oldest is dropped, and removed if that goes well. */
  function Kept(leases: seq<Name>): seq<Name> {
    if |leases| > RETAIN_COUNT then leases[1..] else leases
  }

  function Trimmed(leases: seq<Name>, files: Files, stale: Removal): Files {
    if |leases| > RETAIN_COUNT && stale == Removed then files - {leases[0]} else files
  }

  /** `publish_lease`: what it leaves, and the sequence it returns unless it raises. */
  function Published(c: Control, a: Attempt): (Control, Option<nat>) {
    var sequence := c.sequence + 1;
    var files := Written(c.files, c.token, sequence, a);
    if !a.Renamed? then (Control(c.token, sequence, c.leases, files), None)
    else
      var leases := c.leases + [Lease(sequence)];
      (Control(c.token, sequence, Kept(leases), Trimmed(leases, files, a.stale)),
       if |leases| > RETAIN_COUNT && a.stale == Raised then None else Some(sequence))
  }

  /** The worker writes to the directory too, its own files. */
  datatype Event = Publish(attempt: Attempt) | WorkerWrites(name: string, text: string)

  function Next(c: Control, e: Event): Control {
    match e
    case Publish(a) => Published(c, a).0
    case WorkerWrites(name, text) => if Globbed(name) then c else c.(files := c.files[Foreign(name) := Other(text)])
  }

  function After(token: string, es: seq<Event>): Control {
    if es == [] then Control(token, 0, [], map[]) else Next(After(token, es[..|es| - 1]), es[|es| - 1])
  }

  /** The publications so far. */
  function Count(es: seq<Event>): nat {
    if es == [] then 0 else Count(es[..|es| - 1]) + if es[|es| - 1].Publish? then 1 else 0
  }

  /** The sequences of the publications that renamed their lease, answered or not. */
  function Visible(es: seq<Event>): seq<nat> {
    if es == [] then []
    else
      var before, e := Visible(es[..|es| - 1]), es[|es| - 1];
      if e.Publish? && (e.attempt.Renamed? || e.attempt.Unanswered?) then before + [Count(es)] else before
  }

  /** The sequences of those whose rename was answered: the tunnel's successes. */
  function Answered(es: seq<Event>): seq<nat> {
    if es == [] then []
    else
      var before, e := Answered(es[..|es| - 1]), es[|es| - 1];
      if e.Publish? && e.attempt.Renamed? then before + [Count(es)] else before
  }

  function LastTwo(s: seq<nat>): seq<nat> {
    if |s| <= 2 then s else s[|s| - 2..]
  }

  function Leases(sequences: seq<nat>): seq<Name> {
    seq(|sequences|, i requires 0 <= i < |sequences| => Lease(sequences[i]))
  }

  predicate Increasing(s: seq<nat>) {
    forall i, j :: 0 <= i < j < |s| ==> s[i] < s[j]
  }

  /** The sequences published so far, `visible` and among them `answered`. */
  ghost predicate Sequences(count: nat, visible: seq<nat>, answered: seq<nat>) {
    && Increasing(visible) && Increasing(answered)
    && (forall i :: 0 <= i < |visible| ==> 0 < visible[i] <= count)
    && (forall i :: 0 <= i < |answered| ==> answered[i] in visible)
  }

  /** The directory with those, as the shell and the tunnel know it. */
  ghost predicate Holds(token: string, visible: seq<nat>, answered: seq<nat>, files: Files) {
    && (forall i :: 0 <= i < |answered| <= i + RETAIN_COUNT ==> Lease(answered[i]) in files)
    && (forall s :: Lease(s) in files ==> s in visible && files[Lease(s)] == Whole(token, s))
    && (visible != [] ==> Lease(visible[|visible| - 1]) in files)
  }

  /** `leases` are the last two of `answered`, or all if there are fewer. */
  ghost predicate Tracks(leases: seq<Name>, answered: seq<nat>) {
    && |leases| == (if |answered| < RETAIN_COUNT then |answered| else RETAIN_COUNT)
    && forall i :: 0 <= i < |leases| ==> leases[i] == Lease(answered[|answered| - |leases| + i])
  }

  /** The worker's own files are not listed. */
  ghost predicate Hidden(files: Files) {
    forall file :: Foreign(file) in files ==> !Globbed(file)
  }

  ghost predicate Sound(token: string, c: Control, visible: seq<nat>, answered: seq<nat>) {
    && c.token == token
    && Sequences(c.sequence, visible, answered)
    && Tracks(c.leases, answered)
    && Holds(token, visible, answered, c.files)
  }

  lemma {:induction false} PublicationsKeep(token: string, es: seq<Event>)
    ensures Sound(token, After(token, es), Visible(es), Answered(es)) && After(token, es).sequence == Count(es)
  {
    if es != [] {
      var before, e := es[..|es| - 1], es[|es| - 1];
      PublicationsKeep(token, before);
      var c := After(token, before);
      if e.Publish? {
        PublicationKeeps(token, c, Visible(before), Answered(before), e.attempt);
        assert Visible(es) == VisibleNext(Visible(before), c.sequence + 1, e.attempt);
        assert Answered(es) == AnsweredNext(Answered(before), c.sequence + 1, e.attempt);
      } else {
        WorkerKeeps(token, c, Visible(before), Answered(before), e);
      }
    }
  }

  lemma WorkerKeeps(token: string, c: Control, visible: seq<nat>, answered: seq<nat>, e: Event)
    requires Sound(token, c, visible, answered) && e.WorkerWrites?
    ensures Sound(token, Next(c, e), visible, answered)
  {
  }

  lemma IncreasingNext(s: seq<nat>, x: nat)
    requires Increasing(s) && forall i :: 0 <= i < |s| ==> s[i] < x
    ensures Increasing(s + [x])
  {
  }

  function VisibleNext(visible: seq<nat>, x: nat, a: Attempt): seq<nat> {
    if a.Renamed? || a.Unanswered? then visible + [x] else visible
  }

  function AnsweredNext(answered: seq<nat>, x: nat, a: Attempt): seq<nat> {
    if a.Renamed? then answered + [x] else answered
  }

  lemma SequencesNext(count: nat, visible: seq<nat>, answered: seq<nat>, a: Attempt)
    requires Sequences(count, visible, answered)
    ensures Sequences(count + 1, VisibleNext(visible, count + 1, a), AnsweredNext(answered, count + 1, a))
  {
    IncreasingNext(visible, count + 1);
    forall i | 0 <= i < |answered|
      ensures answered[i] <= count
    {
      assert answered[i] in visible;
      var k :| 0 <= k < |visible| && visible[k] == answered[i];
    }
    IncreasingNext(answered, count + 1);
  }

  /** Writing a lease, however it goes, and tracking it if it succeeded. */
  lemma WrittenKeeps(token: string, count: nat, visible: seq<nat>, answered: seq<nat>, files: Files, a: Attempt)
    requires Sequences(count, visible, answered) && Holds(token, visible, answered, files)
    ensures Holds(
      token, VisibleNext(visible, count + 1, a), AnsweredNext(answered, count + 1, a),
      Written(files, token, count + 1, a))
  {
    if a.Renamed? || a.Unanswered? {
      RenamedKeeps(token, count, visible, answered, files, a);
    } else {
      UnrenamedFiles(files, token, count + 1, a);
    }
  }

  lemma RenamedKeeps(token: string, count: nat, visible: seq<nat>, answered: seq<nat>, files: Files, a: Attempt)
    requires Holds(token, visible, answered, files) && (a.Renamed? || a.Unanswered?)
    ensures Holds(
      token, visible + [count + 1], if a.Renamed? then answered + [count + 1] else answered,
      Written(files, token, count + 1, a))
  {
    var written := Written(files, token, count + 1, a);
    var answered' := if a.Renamed? then answered + [count + 1] else answered;
    RenamedFiles(files, token, count + 1, a);
    forall i | 0 <= i < |answered'| <= i + RETAIN_COUNT
      ensures Lease(answered'[i]) in written
    {
      if i < |answered| {
        assert Lease(answered[i]) in files;
      }
    }
    forall s: nat | Lease(s) in written
      ensures s in visible + [count + 1] && written[Lease(s)] == Whole(token, s)
    {
      if s != count + 1 {
        assert s in visible;
      }
    }
  }

  lemma RenamedFiles(files: Files, token: string, sequence: nat, a: Attempt)
    requires a.Renamed? || a.Unanswered?
    ensures var written := Written(files, token, sequence, a);
      && Lease(sequence) in written && written[Lease(sequence)] == Whole(token, sequence)
      && forall s :: s != sequence ==>
           (Lease(s) in written <==> Lease(s) in files) && (Lease(s) in files ==> written[Lease(s)] == files[Lease(s)])
  {
  }

  lemma UnrenamedFiles(files: Files, token: string, sequence: nat, a: Attempt)
    requires !a.Renamed? && !a.Unanswered?
    ensures var written := Written(files, token, sequence, a);
      forall s ::
        (Lease(s) in written <==> Lease(s) in files) && (Lease(s) in files ==> written[Lease(s)] == files[Lease(s)])
  {
  }

  /** Removing the lease that is no longer tracked. */
  lemma RemovalKeeps(token: string, count: nat, visible: seq<nat>, answered: seq<nat>, files: Files)
    requires |answered| >= RETAIN_COUNT && Sequences(count, visible, answered)
    requires Holds(token, visible + [count + 1], answered + [count + 1], files)
    ensures Holds(token, visible + [count + 1], answered + [count + 1], files - {Lease(answered[|answered| - RETAIN_COUNT])})
  {
    var oldest := answered[|answered| - RETAIN_COUNT];
    assert oldest in answered && oldest < answered[|answered| - 1];
  }

  lemma TrimKeeps(
    token: string, count: nat, visible: seq<nat>, answered: seq<nat>, leases: seq<Name>, files: Files, stale: Removal)
    requires Sequences(count, visible, answered) && Tracks(leases, answered)
    requires Holds(token, visible + [count + 1], answered + [count + 1], files)
    ensures Tracks(Kept(leases + [Lease(count + 1)]), answered + [count + 1])
    ensures Holds(
      token, visible + [count + 1], answered + [count + 1], Trimmed(leases + [Lease(count + 1)], files, stale))
  {
    if |answered| >= RETAIN_COUNT {
      assert (leases + [Lease(count + 1)])[0] == Lease(answered[|answered| - RETAIN_COUNT]);
      RemovalKeeps(token, count, visible, answered, files);
    }
  }

  lemma SuccessHolds(token: string, c: Control, visible: seq<nat>, answered: seq<nat>, stale: Removal)
    requires Sound(token, c, visible, answered)
    ensures var after := Published(c, Renamed(stale)).0;
      && Tracks(after.leases, answered + [c.sequence + 1])
      && Holds(token, visible + [c.sequence + 1], answered + [c.sequence + 1], after.files)
  {
    WrittenKeeps(token, c.sequence, visible, answered, c.files, Renamed(stale));
    TrimKeeps(
      token, c.sequence, visible, answered, c.leases, Written(c.files, token, c.sequence + 1, Renamed(stale)), stale);
  }

  lemma SuccessIsSound(token: string, c: Control, visible: seq<nat>, answered: seq<nat>, stale: Removal)
    requires Sound(token, c, visible, answered)
    ensures Sound(token, Published(c, Renamed(stale)).0, visible + [c.sequence + 1], answered + [c.sequence + 1])
  {
    SequencesNext(c.sequence, visible, answered, Renamed(stale));
    SuccessHolds(token, c, visible, answered, stale);
  }

  lemma FailureHolds(token: string, c: Control, visible: seq<nat>, answered: seq<nat>, a: Attempt)
    requires Sound(token, c, visible, answered) && !a.Renamed?
    ensures var after := Published(c, a).0;
      && after.leases == c.leases && after.token == token && after.sequence == c.sequence + 1
      && Holds(token, VisibleNext(visible, c.sequence + 1, a), answered, after.files)
  {
    WrittenKeeps(token, c.sequence, visible, answered, c.files, a);
  }

  lemma FailureIsSound(token: string, c: Control, visible: seq<nat>, answered: seq<nat>, a: Attempt)
    requires Sound(token, c, visible, answered) && !a.Renamed?
    ensures Sound(token, Published(c, a).0, VisibleNext(visible, c.sequence + 1, a), answered)
  {
    SequencesNext(c.sequence, visible, answered, a);
    FailureHolds(token, c, visible, answered, a);
  }

  lemma PublicationKeeps(token: string, c: Control, visible: seq<nat>, answered: seq<nat>, a: Attempt)
    requires Sound(token, c, visible, answered)
    ensures Sound(
      token, Published(c, a).0, VisibleNext(visible, c.sequence + 1, a), AnsweredNext(answered, c.sequence + 1, a))
  {
    if a.Renamed? {
      SuccessIsSound(token, c, visible, answered, a.stale);
    } else {
      FailureIsSound(token, c, visible, answered, a);
    }
  }

  lemma PublicationHides(c: Control, a: Attempt)
    requires Hidden(c.files)
    ensures Hidden(Published(c, a).0.files)
  {
    var written := Written(c.files, c.token, c.sequence + 1, a);
    assert forall file :: Foreign(file) in written ==> Foreign(file) in c.files;
    assert forall name :: name in Published(c, a).0.files ==> name in written;
  }

  lemma {:induction false} ForeignFilesAreHidden(token: string, es: seq<Event>)
    ensures Hidden(After(token, es).files)
  {
    if es != [] {
      var before, e := es[..|es| - 1], es[|es| - 1];
      ForeignFilesAreHidden(token, before);
      if e.Publish? {
        PublicationHides(After(token, before), e.attempt);
      }
    }
  }

  // Reading

  /** The three words that the shell's `read` splits a lease's line into, unless it fails for want of a whole line. */
  function ReadLine(text: string): Option<(string, string, string)> {
    var end := Before(text, {'\n'});
    if end == |text| then None
    else
      var first := Stripped(text[..end], {' '});
      var i := Before(first, {' '});
      var second := Stripped(first[i..], {' '});
      var j := Before(second, {' '});
      Some((first[..i], second[..j], Stripped(second[j..], {' '})))
  }

  /** The sequence of a valid lease of the run that `token` names. */
  function LeaseIn(text: string, token: string): Option<nat> {
    match ReadLine(text)
    case None => None
    case Some((name, sequence, extra)) =>
      if sequence == "" || !AllDigits(sequence) then None
      else if name != token || extra != "" then None
      else Some(Value(sequence))
  }

  lemma LineReadsBack(token: string, digits: string)
    requires IsWord(token) && IsWord(digits)
    ensures ReadLine(token + " " + digits + "\n") == Some((token, digits, ""))
  {
    var line := token + " " + digits;
    var rest := " " + digits;
    assert token[0] in token && digits[0] in digits;
    assert line + "\n" == token + " " + digits + "\n";
    BeforeWord(line, "\n", {'\n'});
    assert (line + "\n")[..|line|] == line;
    assert line == token + rest;
    BeforeWord(token, rest, {' '});
    assert line[..|token|] == token && line[|token|..] == rest;
    assert Stripped(line, {' '}) == line;
    assert rest[1..] == digits;
    assert Stripped(rest, {' '}) == digits;
    assert digits + "" == digits;
    BeforeWord(digits, "", {' '});
    assert digits[..|digits|] == digits && digits[|digits|..] == "";
  }

  lemma LeaseReadsBack(token: string, sequence: nat)
    requires IsWord(token)
    ensures LeaseIn(Bytes(Whole(token, sequence)), token) == Some(sequence)
  {
    DecimalReadsBack(sequence);
    DecimalIsWord(sequence);
    LineReadsBack(token, Decimal(sequence));
  }

  /** A line of the token and the digits, with spaces between them, and maybe around. */
  function LeaseLine(before: nat, token: string, between: nat, digits: string, after: nat): string {
    Spaces(before) + (token + (Spaces(between) + (digits + Spaces(after))))
  }

  ghost predicate IsLeaseText(text: string, token: string, n: nat, before: nat, between: nat, digits: string, after: nat) {
    && between > 0 && digits != "" && AllDigits(digits) && Value(digits) == n
    && LeaseLine(before, token, between, digits, after) + "\n" <= text
  }

  lemma TwoWords(first: string, between: nat, second: string, after: nat)
    requires IsWord(first) && IsWord(second) && between > 0
    ensures var rest := Spaces(between) + (second + Spaces(after));
      && Before(first + rest, {' '}) == |first|
      && (first + rest)[..|first|] == first && (first + rest)[|first|..] == rest
      && Stripped(rest, {' '}) == second + Spaces(after)
      && Before(second + Spaces(after), {' '}) == |second|
      && (second + Spaces(after))[..|second|] == second && (second + Spaces(after))[|second|..] == Spaces(after)
      && Stripped(Spaces(after), {' '}) == ""
  {
    var rest := Spaces(between) + (second + Spaces(after));
    assert first[0] in first && second[0] in second;
    BeforeWord(first, rest, {' '});
    SpacesStripped(between, second + Spaces(after));
    BeforeWord(second, Spaces(after), {' '});
    SpacesStripped(after, "");
    assert Spaces(after) + "" == Spaces(after);
  }

  lemma DigitsAreWord(digits: string)
    requires digits != "" && AllDigits(digits)
    ensures IsWord(digits)
  {
  }

  lemma OneLine(line: string, text: string)
    requires line + "\n" <= text && '\n' !in line
    ensures Before(text, {'\n'}) == |line| < |text| && text[..|line|] == line
  {
    var rest := text[|line|..];
    assert text[|line|] == (line + "\n")[|line|];
    assert text == line + rest;
    BeforeWord(line, rest, {'\n'});
  }

  lemma NoNewlineIn(token: string, before: nat, between: nat, digits: string, after: nat)
    requires IsWord(token) && IsWord(digits)
    ensures '\n' !in LeaseLine(before, token, between, digits, after)
  {
  }

  lemma LeaseTextReads(text: string, token: string, n: nat, before: nat, between: nat, digits: string, after: nat)
    requires IsWord(token) && IsLeaseText(text, token, n, before, between, digits, after)
    ensures LeaseIn(text, token) == Some(n)
  {
    var line := LeaseLine(before, token, between, digits, after);
    DigitsAreWord(digits);
    NoNewlineIn(token, before, between, digits, after);
    OneLine(line, text);
    assert token[0] in token;
    SpacesStripped(before, token + (Spaces(between) + (digits + Spaces(after))));
    TwoWords(token, between, digits, after);
  }

  lemma FirstOf(s: string)
    ensures var i := Before(s, {' '}); s == s[..i] + s[i..] && ' ' !in s[..i] && (i < |s| ==> s[i] == ' ')
  {
  }

  /** A line whose third word is nothing is the first two, with spaces around. */
  lemma TwoWordsRead(line: string, first: string, second: string) returns (before: nat, between: nat, after: nat)
    requires first == Stripped(line, {' '})
    requires second == Stripped(first[Before(first, {' '})..], {' '}) && second != ""
    requires Stripped(second[Before(second, {' '})..], {' '}) == ""
    ensures between > 0
         && line == LeaseLine(before, first[..Before(first, {' '})], between, second[..Before(second, {' '})], after)
  {
    var i, j := Before(first, {' '}), Before(second, {' '});
    before := StrippedSpaces(line);
    between := StrippedSpaces(first[i..]);
    after := StrippedSpaces(second[j..]);
    FirstOf(first);
    FirstOf(second);
    assert Spaces(after) + "" == Spaces(after);
    assert Spaces(0) + second == second;
    assert first[i..] == "" || first[i..][0] == ' ';
  }

  lemma LeaseReadIsText(text: string, token: string)
    returns (before: nat, between: nat, digits: string, after: nat)
    requires IsWord(token) && LeaseIn(text, token).Some?
    ensures IsLeaseText(text, token, LeaseIn(text, token).value, before, between, digits, after)
  {
    var end := Before(text, {'\n'});
    var line := text[..end];
    var first := Stripped(line, {' '});
    var second := Stripped(first[Before(first, {' '})..], {' '});
    digits := second[..Before(second, {' '})];
    hide LeaseLine, Stripped, Before;
    before, between, after := TwoWordsRead(line, first, second);
    assert text[..end + 1] == line + "\n";
  }

  /**
   Exactly when a file reads as a lease of the run that `token` names: its first line, a whole one,
   has the token, then the digits of the sequence, and nothing else but spaces.
   */
  lemma ALeaseIsReadExactly(text: string, token: string, n: nat)
    requires IsWord(token)
    ensures LeaseIn(text, token) == Some(n)
       <==> exists before, between, digits, after :: IsLeaseText(text, token, n, before, between, digits, after)
  {
    if LeaseIn(text, token) == Some(n) {
      var before, between, digits, after := LeaseReadIsText(text, token);
    }
    if before, between, digits, after :| IsLeaseText(text, token, n, before, between, digits, after) {
      LeaseTextReads(text, token, n, before, between, digits, after);
    }
  }

  /** What reading each listed file as a lease gives. */
  function Readings(files: Files, token: string): map<Name, Option<nat>> {
    map name | name in files && Listed(name) :: LeaseIn(Bytes(files[name]), token)
  }

  /** The sequences of the valid leases among them. */
  ghost function ValidLeases(readings: map<Name, Option<nat>>): set<nat> {
    set name | name in readings && readings[name].Some? :: readings[name].value
  }

  /** `latest` is the highest of `sequences`, if there is one. */
  ghost predicate IsLatest(sequences: set<nat>, latest: Option<nat>) {
    match latest
    case None => sequences == {}
    case Some(m) => m in sequences && forall s :: s in sequences ==> s <= m
  }

  /** No more than `latest`. */
  predicate AtMost(read: Option<nat>, latest: Option<nat>) {
    read.Some? ==> latest.Some? && read.value <= latest.value
  }

  lemma LatestOfListing(readings: map<Name, Option<nat>>, listing: seq<Name>, latest: Option<nat>)
    requires forall name :: name in listing <==> name in readings
    requires forall k :: 0 <= k < |listing| ==> listing[k] in readings && AtMost(readings[listing[k]], latest)
    requires latest.Some? ==> exists k :: 0 <= k < |listing| && readings[listing[k]] == latest
    ensures IsLatest(ValidLeases(readings), latest)
  {
    forall name | name in readings
      ensures AtMost(readings[name], latest)
    {
      var k :| 0 <= k < |listing| && listing[k] == name;
    }
    if latest.Some? {
      var k :| 0 <= k < |listing| && readings[listing[k]] == latest;
      assert listing[k] in listing;
    }
  }

  /** `latest_lease_sequence`, over the names the shell lists, in whatever order. */
  method LatestLeaseSequence(readings: map<Name, Option<nat>>, listing: seq<Name>) returns (latest: Option<nat>)
    requires forall name :: name in listing <==> name in readings
    ensures IsLatest(ValidLeases(readings), latest)
  {
    latest := None;
    assert forall k :: 0 <= k < |listing| ==> listing[k] in listing;
    for i := 0 to |listing|
      invariant forall k :: 0 <= k < i ==> AtMost(readings[listing[k]], latest)
      invariant latest.Some? ==> exists k :: 0 <= k < i && readings[listing[k]] == latest
    {
      var read := readings[listing[i]];
      if read.None? {
        continue;
      }
      if latest.None? || read.value > latest.value {
        latest := read;
      }
    }
    LatestOfListing(readings, listing, latest);
  }

  function Last(s: seq<nat>): Option<nat> {
    if s == [] then None else Some(s[|s| - 1])
  }

  lemma IncreasingLast(s: seq<nat>, x: nat)
    requires Increasing(s) && x in s
    ensures x <= s[|s| - 1]
  {
  }

  /**
   Whatever became of the publications so far, the watchdog's latest sequence is that
   of the last lease whose rename took effect, and there is none before the first.
   */
  lemma TheLastVisibleLeaseIsTheLatest(token: string, es: seq<Event>)
    requires IsWord(token)
    ensures IsLatest(ValidLeases(Readings(After(token, es).files, token)), Last(Visible(es)))
  {
    PublicationsKeep(token, es);
    ForeignFilesAreHidden(token, es);
    var files, visible := After(token, es).files, Visible(es);
    var readings := Readings(files, token);
    forall name | name in readings
      ensures name.Lease? && name.sequence in visible && readings[name] == Some(name.sequence)
      ensures name.sequence <= visible[|visible| - 1]
    {
      ListedIsALease(token, visible, Answered(es), files, name);
      LeaseReadsBack(token, name.sequence);
      IncreasingLast(visible, name.sequence);
    }
    if visible != [] {
      var last := Lease(visible[|visible| - 1]);
      TheTunnelsNames(last, last);
      assert last in readings;
    }
  }

  lemma ListedIsALease(token: string, visible: seq<nat>, answered: seq<nat>, files: Files, name: Name)
    requires Holds(token, visible, answered, files) && Hidden(files) && name in files && Listed(name)
    ensures name.Lease? && name.sequence in visible && files[name] == Whole(token, name.sequence)
  {
    if !name.Foreign? {
      TheTunnelsNames(name, name);
    }
  }

  /** There is at most one latest sequence. */
  lemma OneIsLatest(sequences: set<nat>, a: Option<nat>, b: Option<nat>)
    requires IsLatest(sequences, a) && IsLatest(sequences, b)
    ensures a == b
  {
  }

  predicate WasAnswered(e: Event) {
    e.Publish? && e.attempt.Renamed?
  }

  /** Every rename that was not answered has an answered one after it. */
  ghost predicate AnsweredSince(es: seq<Event>) {
    forall k :: 0 <= k < |es| && es[k] == Publish(Unanswered) ==> exists l :: k < l < |es| && WasAnswered(es[l])
  }

  lemma AnsweredSinceNext(es: seq<Event>)
    requires es != []
    ensures var before, e := es[..|es| - 1], es[|es| - 1];
            AnsweredSince(es) <==> WasAnswered(e) || (AnsweredSince(before) && e != Publish(Unanswered))
  {
    var before, last := es[..|es| - 1], |es| - 1;
    if WasAnswered(es[last]) {
      assert forall k :: 0 <= k < |es| && es[k] == Publish(Unanswered) ==> k < last && WasAnswered(es[last]);
    } else if AnsweredSince(es) {
      forall k | 0 <= k < |before| && before[k] == Publish(Unanswered)
        ensures exists l :: k < l < |before| && WasAnswered(before[l])
      {
        assert es[k] == Publish(Unanswered);
        var l :| k < l < |es| && WasAnswered(es[l]);
        assert WasAnswered(before[l]);
      }
    } else if AnsweredSince(before) && es[last] != Publish(Unanswered) {
      forall k | 0 <= k < |es| && es[k] == Publish(Unanswered)
        ensures exists l :: k < l < |es| && WasAnswered(es[l])
      {
        assert before[k] == Publish(Unanswered);
        var l :| k < l < |before| && WasAnswered(before[l]);
        assert WasAnswered(es[l]);
      }
    }
  }

  lemma {:induction false} LastVisibleIsAnswered(token: string, es: seq<Event>)
    ensures Last(Visible(es)) == Last(Answered(es)) <==> AnsweredSince(es)
  {
    if es != [] {
      var before, e := es[..|es| - 1], es[|es| - 1];
      LastVisibleIsAnswered(token, before);
      AnsweredSinceNext(es);
      PublicationsKeep(token, before);
      if Answered(before) != [] {
        var i := |Answered(before)| - 1;
        assert Answered(before)[i] in Visible(before);
        assert Answered(before)[i] <= Count(before);
      }
    }
  }

  /**
   So it is the sequence of the tunnel's last success exactly if every rename that took
   effect without an answer was followed by one that was answered.
   */
  lemma TheLatestIsTheLastSuccess(token: string, es: seq<Event>, latest: Option<nat>)
    requires IsWord(token) && IsLatest(ValidLeases(Readings(After(token, es).files, token)), latest)
    ensures latest == Last(Answered(es)) <==> AnsweredSince(es)
  {
    TheLastVisibleLeaseIsTheLatest(token, es);
    OneIsLatest(ValidLeases(Readings(After(token, es).files, token)), latest, Last(Visible(es)));
    LastVisibleIsAnswered(token, es);
  }

  /** A run in which it is not: the second rename took effect, but the tunnel heard of a failure. */
  lemma TheLatestMayBeUnanswered(token: string)
    requires IsWord(token)
    ensures var es := [Publish(Renamed(Removed)), Publish(Unanswered)];
            && IsLatest(ValidLeases(Readings(After(token, es).files, token)), Some(2))
            && Last(Answered(es)) == Some(1)
  {
    var first := [Publish(Renamed(Removed))];
    var es := first + [Publish(Unanswered)];
    assert es == [Publish(Renamed(Removed)), Publish(Unanswered)];
    assert es[..1] == first && first[..0] == [];
    assert Count(first) == 1 && Visible(first) == [1] && Answered(first) == [1];
    assert Count(es) == 2 && Visible(es) == [1, 2] && Answered(es) == [1];
    TheLastVisibleLeaseIsTheLatest(token, es);
  }

  /** The tunnel tracks its last two successes, or fewer at first, and they are in the directory. */
  lemma TheLastTwoAreKept(token: string, es: seq<Event>)
    ensures var c := After(token, es);
      && Increasing(Answered(es))
      && c.leases == Leases(LastTwo(Answered(es)))
      && forall name :: name in c.leases ==> name in c.files
  {
    PublicationsKeep(token, es);
    assert After(token, es).leases == Leases(LastTwo(Answered(es)));
  }

  /** Whatever the shell lists is a lease with all of its text, under its own name. */
  lemma ListedLeasesAreWhole(token: string, es: seq<Event>, name: Name)
    requires name in After(token, es).files && Listed(name)
    ensures name.Lease? && After(token, es).files[name] == Whole(token, name.sequence)
  {
    PublicationsKeep(token, es);
    ForeignFilesAreHidden(token, es);
    ListedIsALease(token, Visible(es), Answered(es), After(token, es).files, name);
  }

  // What is left in the directory

  /** How the publications went, in turn. */
  function Attempts(es: seq<Event>): seq<Attempt> {
    if es == [] then []
    else Attempts(es[..|es| - 1]) + if es[|es| - 1].Publish? then [es[|es| - 1].attempt] else []
  }

  /** How it went to remove a lease, at each success. */
  function Removals(es: seq<Event>): (removals: seq<Removal>)
    ensures |removals| == |Answered(es)|
  {
    if es == [] then []
    else
      var e := es[|es| - 1];
      Removals(es[..|es| - 1]) + if e.Publish? && e.attempt.Renamed? then [e.attempt.stale] else []
  }

  /** The second success after that of `sequence` could remove its lease. */
  ghost predicate WasRemoved(answered: seq<nat>, removals: seq<Removal>, sequence: nat)
    requires |removals| == |answered|
  {
    exists i :: 0 <= i < |answered| - 2 && answered[i] == sequence && removals[i + 2] == Removed
  }

  ghost predicate LeftOver(attempts: seq<Attempt>, sequence: nat) {
    && 0 < sequence <= |attempts|
    && match attempts[sequence - 1]
       case NotWritten(part, removed) => part.Some? && !removed
       case NotRenamed(removed) => !removed
       case _ => false
  }

  ghost predicate Leaves(c: Control, es: seq<Event>) {
    && (forall s :: Lease(s) in c.files <==> s in Visible(es) && !WasRemoved(Answered(es), Removals(es), s))
    && (forall s :: Temporary(s) in c.files <==> LeftOver(Attempts(es), s))
  }

  lemma {:induction false} CountsAttempts(es: seq<Event>)
    ensures |Attempts(es)| == Count(es)
  {
    if es != [] {
      CountsAttempts(es[..|es| - 1]);
    }
  }

  lemma LeftOverNext(attempts: seq<Attempt>, a: Attempt, sequence: nat)
    ensures LeftOver(attempts + [a], sequence) <==>
      LeftOver(attempts, sequence) || (sequence == |attempts| + 1 && LeftOver([a], 1))
  {
  }

  lemma WrittenTemporaries(files: Files, token: string, sequence: nat, a: Attempt, s: nat)
    requires Temporary(sequence) !in files
    ensures Temporary(s) in Written(files, token, sequence, a) <==>
      Temporary(s) in files || (s == sequence && LeftOver([a], 1))
  {
  }

  /** One more success, at which the lease before the last two may be removed. */
  lemma RemovedNext(answered: seq<nat>, removals: seq<Removal>, x: nat, stale: Removal, s: nat)
    requires |removals| == |answered|
    ensures WasRemoved(answered + [x], removals + [stale], s) <==>
      || WasRemoved(answered, removals, s)
      || (|answered| >= 2 && stale == Removed && s == answered[|answered| - 2])
  {
    var all, outcomes := answered + [x], removals + [stale];
    if WasRemoved(answered, removals, s) {
      var i :| 0 <= i < |answered| - 2 && answered[i] == s && removals[i + 2] == Removed;
      assert all[i] == s && outcomes[i + 2] == Removed;
    }
    if |answered| >= 2 && stale == Removed && s == answered[|answered| - 2] {
      assert all[|answered| - 2] == s && outcomes[|answered|] == Removed;
    }
  }

  lemma PublishedTemporaries(c: Control, a: Attempt, visible: seq<nat>, answered: seq<nat>, attempts: seq<Attempt>, s: nat)
    requires Sound(c.token, c, visible, answered) && c.sequence == |attempts|
    requires Temporary(s) in c.files <==> LeftOver(attempts, s)
    requires Temporary(c.sequence + 1) !in c.files
    ensures Temporary(s) in Published(c, a).0.files <==> LeftOver(attempts + [a], s)
  {
    WrittenTemporaries(c.files, c.token, c.sequence + 1, a, s);
    LeftOverNext(attempts, a, s);
    if |answered| >= 2 {
      assert c.leases[0] == Lease(answered[|answered| - 2]);
    }
  }

  lemma UnansweredLeases(c: Control, a: Attempt, s: nat)
    requires !a.Renamed?
    ensures Lease(s) in Published(c, a).0.files <==> Lease(s) in c.files || (a.Unanswered? && s == c.sequence + 1)
  {
    if a.Unanswered? {
      RenamedFiles(c.files, c.token, c.sequence + 1, a);
    } else {
      UnrenamedFiles(c.files, c.token, c.sequence + 1, a);
    }
  }

  lemma PublishedLeases(
    c: Control, a: Attempt, visible: seq<nat>, answered: seq<nat>, removals: seq<Removal>, s: nat)
    requires Sound(c.token, c, visible, answered) && |removals| == |answered|
    requires Lease(s) in c.files <==> s in visible && !WasRemoved(answered, removals, s)
    ensures var x := c.sequence + 1;
      Lease(s) in Published(c, a).0.files <==>
        && s in VisibleNext(visible, x, a)
        && !(if a.Renamed? then WasRemoved(answered + [x], removals + [a.stale], s)
             else WasRemoved(answered, removals, s))
  {
    hide Published;
    var x := c.sequence + 1;
    NewIsNotRemoved(answered, removals, x, c.sequence, visible);
    if a.Renamed? {
      RemovedNext(answered, removals, x, a.stale, s);
      TrimmedLeases(c, a, visible, answered, s);
      assert |answered| >= 2 ==> answered[|answered| - 2] in visible;
    } else {
      UnansweredLeases(c, a, s);
    }
  }

  /** What a publication adds to the history. */
  lemma HistoryNext(before: seq<Event>, a: Attempt)
    ensures var es := before + [Publish(a)];
      && Attempts(es) == Attempts(before) + [a]
      && Visible(es) == VisibleNext(Visible(before), Count(before) + 1, a)
      && Answered(es) == AnsweredNext(Answered(before), Count(before) + 1, a)
      && Removals(es) == Removals(before) + if a.Renamed? then [a.stale] else []
  {
    hide LeftOver, WasRemoved, Sound, Written;
    var es := before + [Publish(a)];
    assert es[..|es| - 1] == before && es[|es| - 1] == Publish(a);
    assert Count(es) == Count(before) + 1;
    assert Attempts(es) == Attempts(before) + [a];
    assert Removals(es) == Removals(before) + if a.Renamed? then [a.stale] else [];
  }

  lemma PublicationLeaves(token: string, before: seq<Event>, a: Attempt)
    requires Leaves(After(token, before), before)
    ensures Leaves(After(token, before + [Publish(a)]), before + [Publish(a)])
  {
    var es, c := before + [Publish(a)], After(token, before);
    assert es[..|es| - 1] == before;
    PublicationsKeep(token, before);
    CountsAttempts(before);
    HistoryNext(before, a);
    var after := Published(c, a).0;
    assert After(token, es) == after;
    hide Published, WasRemoved, LeftOver, Sound, After, Visible, Answered, Removals, Attempts;
    NotLeftYet(Attempts(before));
    forall s
      ensures Temporary(s) in after.files <==> LeftOver(Attempts(es), s)
    {
      PublishedTemporaries(c, a, Visible(before), Answered(before), Attempts(before), s);
    }
    forall s
      ensures Lease(s) in after.files <==> s in Visible(es) && !WasRemoved(Answered(es), Removals(es), s)
    {
      PublishedLeases(c, a, Visible(before), Answered(before), Removals(before), s);
      assert Removals(before) + [] == Removals(before);
    }
  }

  lemma NotLeftYet(attempts: seq<Attempt>)
    ensures !LeftOver(attempts, |attempts| + 1)
  {
  }

  lemma NewIsNotRemoved(answered: seq<nat>, removals: seq<Removal>, x: nat, count: nat, visible: seq<nat>)
    requires |removals| == |answered| && Sequences(count, visible, answered) && x > count
    ensures !WasRemoved(answered, removals, x) && x !in visible
  {
    forall i | 0 <= i < |answered|
      ensures answered[i] != x
    {
      assert answered[i] in visible;
    }
  }

  lemma TrimmedLeases(c: Control, a: Attempt, visible: seq<nat>, answered: seq<nat>, s: nat)
    requires Sound(c.token, c, visible, answered) && a.Renamed?
    ensures Lease(s) in Published(c, a).0.files <==>
      && (Lease(s) in c.files || s == c.sequence + 1)
      && !(|answered| >= 2 && a.stale == Removed && s == answered[|answered| - 2])
  {
    RenamedFiles(c.files, c.token, c.sequence + 1, a);
    if |answered| >= 2 {
      assert c.leases[0] == Lease(answered[|answered| - 2]);
      assert answered[|answered| - 2] in visible;
    }
  }

  lemma WorkerLeaves(c: Control, before: seq<Event>, e: Event)
    requires Leaves(c, before) && e.WorkerWrites?
    ensures Leaves(Next(c, e), before + [e])
  {
    assert (before + [e])[..|before|] == before;
  }

  /**
   A lease is in the directory exactly if its rename took effect, and the second success
   after its own, if there was one, did not remove it; one whose rename was not answered stays. A
   temporary file is left exactly if its publication failed, and could not remove it.
   */
  lemma {:induction false} OnlyTheseAreLeft(token: string, es: seq<Event>)
    ensures Leaves(After(token, es), es)
  {
    if es != [] {
      var before, e := es[..|es| - 1], es[|es| - 1];
      OnlyTheseAreLeft(token, before);
      assert es == before + [e];
      if e.Publish? {
        PublicationLeaves(token, before, e.attempt);
      } else {
        WorkerLeaves(After(token, before), before, e);
      }
    }
  }

  /** What the worker last wrote under a name. */
  function WrittenLast(es: seq<Event>, name: string): Option<string> {
    if es == [] then None
    else
      var e := es[|es| - 1];
      if e.WorkerWrites? && e.name == name && !Globbed(name) then Some(e.text) else WrittenLast(es[..|es| - 1], name)
  }

  /** What a temporary file holds that is left. */
  function LeftText(token: string, sequence: nat, a: Attempt): Content {
    if a.NotWritten? && a.part.Some? then Other(a.part.value) else Whole(token, sequence)
  }

  ghost predicate WorkersHold(c: Control, es: seq<Event>) {
    forall name ::
      && (Foreign(name) in c.files <==> WrittenLast(es, name).Some?)
      && (Foreign(name) in c.files ==> c.files[Foreign(name)] == Other(WrittenLast(es, name).value))
  }

  ghost predicate TemporariesHold(token: string, c: Control, es: seq<Event>) {
    forall s: nat :: Temporary(s) in c.files ==>
      0 < s <= |Attempts(es)| && c.files[Temporary(s)] == LeftText(token, s, Attempts(es)[s - 1])
  }

  lemma PublicationFiles(c: Control, a: Attempt)
    requires forall i :: 0 <= i < |c.leases| ==> c.leases[i].Lease?
    ensures var after := Published(c, a).0;
      && (forall name ::
            && (Foreign(name) in after.files <==> Foreign(name) in c.files)
            && (Foreign(name) in c.files ==> after.files[Foreign(name)] == c.files[Foreign(name)]))
      && (forall s: nat :: Temporary(s) in after.files ==>
            if s == c.sequence + 1 && Temporary(s) !in c.files then after.files[Temporary(s)] == LeftText(c.token, s, a)
            else s == c.sequence + 1 || (Temporary(s) in c.files && after.files[Temporary(s)] == c.files[Temporary(s)]))
  {
  }

  lemma WrittenLastNext(before: seq<Event>, e: Event, name: string)
    ensures WrittenLast(before + [e], name) ==
      if e.WorkerWrites? && e.name == name && !Globbed(name) then Some(e.text) else WrittenLast(before, name)
  {
    assert (before + [e])[..|before|] == before;
  }

  /** The worker's files hold what it wrote last, whatever the tunnel publishes. */
  lemma {:induction false} TheWorkersFilesHold(token: string, es: seq<Event>)
    ensures WorkersHold(After(token, es), es)
  {
    if es != [] {
      var before, e := es[..|es| - 1], es[|es| - 1];
      TheWorkersFilesHold(token, before);
      PublicationsKeep(token, before);
      assert es == before + [e];
      hide WrittenLast, Sound, Published;
      forall name
        ensures WrittenLast(es, name) ==
          if e.WorkerWrites? && e.name == name && !Globbed(name) then Some(e.text) else WrittenLast(before, name)
      {
        WrittenLastNext(before, e, name);
      }
      if e.Publish? {
        PublicationFiles(After(token, before), e.attempt);
      }
    }
  }

  /** And a temporary file that is left holds as much of its lease as was written. */
  lemma {:induction false} TheTemporariesHold(token: string, es: seq<Event>)
    ensures TemporariesHold(token, After(token, es), es)
  {
    if es != [] {
      var before, e := es[..|es| - 1], es[|es| - 1];
      TheTemporariesHold(token, before);
      PublicationsKeep(token, before);
      CountsAttempts(before);
      assert es == before + [e];
      hide Sound, Published, LeftText, Globbed, WorkersHold;
      if e.Publish? {
        PublicationFiles(After(token, before), e.attempt);
      }
    }
  }

  /** So as long as every publication goes well, the last two leases are there and no others. */
  lemma OnlyTheLastTwoAreLeft(token: string, es: seq<Event>, s: nat)
    requires forall k :: 0 <= k < |es| && es[k].Publish? ==> es[k].attempt == Renamed(Removed)
    ensures Lease(s) in After(token, es).files <==> s in LastTwo(Answered(es))
    ensures Lease(s) in After(token, es).files <==> 0 < s <= Count(es) < s + 2
    ensures Temporary(s) !in After(token, es).files
  {
    OnlyTheseAreLeft(token, es);
    AllGoWell(es);
    var answered := Answered(es);
    if s in answered {
      var i :| 0 <= i < |answered| && answered[i] == s;
      assert i < |answered| - 2 ==> WasRemoved(answered, Removals(es), s);
      if i >= |answered| - 2 {
        assert s == LastTwo(answered)[i - (|answered| - |LastTwo(answered)|)];
      }
    }
    if 0 < s <= Count(es) {
      assert answered[s - 1] == s;
    }
  }

  lemma {:induction false} AllGoWell(es: seq<Event>)
    requires forall k :: 0 <= k < |es| && es[k].Publish? ==> es[k].attempt == Renamed(Removed)
    ensures Visible(es) == Answered(es) && |Answered(es)| == Count(es) && |Attempts(es)| == Count(es)
    ensures forall i :: 0 <= i < Count(es) ==>
      Answered(es)[i] == i + 1 && Removals(es)[i] == Removed && Attempts(es)[i] == Renamed(Removed)
  {
    if es != [] {
      AllGoWell(es[..|es| - 1]);
    }
  }

  /**
   The sequence returned is the number of the publication: returned exactly if the rename
   was answered, unless an old lease was to be removed and that raised.
   */
  lemma TheSequenceReturned(token: string, es: seq<Event>, a: Attempt)
    ensures Published(After(token, es), a).1 ==
      if a.Renamed? && !(|Answered(es)| >= 2 && a.stale == Raised) then Some(Count(es) + 1) else None
  {
    PublicationsKeep(token, es);
  }

  // As an object

  class WorkerControl {
    const token: string
    var sequence: nat
    var leases: seq<Name>
    var files: Files

    ghost function View(): Control
      reads this
    {
      Control(token, sequence, leases, files)
    }

    constructor (token: string)
      ensures this.token == token && View() == After(token, [])
    {
      this.token := token;
      sequence, leases, files := 0, [], map[];
    }

    /** One publication, and what is removed for it: the sequence returned, unless it raises. */
    method PublishLease(a: Attempt) returns (published: Option<nat>)
      requires |leases| <= RETAIN_COUNT
      modifies this
      ensures (View(), published) == Published(old(View()), a)
      ensures |leases| <= RETAIN_COUNT
    {
      sequence := sequence + 1;
      var written := WriteLease(a);
      if !written {
        return None;
      }
      leases := leases + [Lease(sequence)];
      ghost var tracked, made := leases, files;
      while |leases| > RETAIN_COUNT
        invariant sequence == old(sequence) + 1
        invariant leases == tracked || leases == tracked[1..]
        invariant |tracked| <= RETAIN_COUNT + 1
        invariant files == if leases == tracked then made
                           else if a.stale == Removed then made - {tracked[0]} else made
        invariant leases != tracked ==> a.stale != Raised && |tracked| > RETAIN_COUNT
        decreases |leases|
      {
        var stale := leases[0];
        leases := leases[1..];
        if a.stale == Removed {
          files := files - {stale};
        } else if a.stale == Raised {
          return None;
        }
      }
      return Some(sequence);
    }

    /** The lease is written to a temporary file, which is then renamed: whether both succeeded. */
    method WriteLease(a: Attempt) returns (written: bool)
      modifies this`files
      ensures written == a.Renamed?
      ensures files == Written(old(files), token, sequence, a)
    {
      var content, temporary, lease := Whole(token, sequence), Temporary(sequence), Lease(sequence);
      match a
      case NotWritten(part, removed) =>
        if part.Some? {
          files := files[temporary := Other(part.value)];
          RemoveIf(removed, temporary);
        }
        return false;
      case NotRenamed(removed) =>
        files := files[temporary := content];
        RemoveIf(removed, temporary);
        return false;
      case _ =>
        files := files[temporary := content];
        files := (files - {temporary})[lease := files[temporary]];
        return a.Renamed?;
    }

    method RemoveIf(removed: bool, name: Name)
      modifies this`files
      ensures files == if removed then old(files) - {name} else old(files)
    {
      if removed {
        files := files - {name};
      }
    }
  }
}
