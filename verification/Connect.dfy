/** Connecting to the login node, with the prompts that takes. */
module Connect {
  import opened Prelude
  import opened Text
  import J = JobOutput

  const PASSWORD_ATTEMPTS := 3
  const DEFAULT_PORT := 22

  // Known hosts

  /** A known hosts line, by the names that its patterns match: `host` or `[host]:port`. */
  datatype Line = Line(names: set<string>)

  /** A host's name in a known hosts line. */
  function Pattern(host: string, port: nat): string {
    if port == DEFAULT_PORT then host else "[" + host + "]:" + Decimal(port)
  }

  /** asyncssh looks a host up with its port, and then without. */
  predicate Matches(line: Line, host: string, port: nat) {
    Pattern(host, port) in line.names || host in line.names
  }

  predicate Knows(lines: seq<Line>, host: string, port: nat) {
    exists i :: 0 <= i < |lines| && Matches(lines[i], host, port)
  }

  type KnownLines = map<string, seq<Line>>

  predicate KnowsIn(lines: KnownLines, host: string, port: nat) {
    exists file <- lines :: Knows(lines[file], host, port)
  }

  lemma KnowsMore(lines: seq<Line>, line: Line, host: string, port: nat)
    ensures Knows(lines + [line], host, port) <==> Knows(lines, host, port) || Matches(line, host, port)
  {
    var all := lines + [line];
    if Knows(lines, host, port) {
      var i :| 0 <= i < |lines| && Matches(lines[i], host, port);
      assert Matches(all[i], host, port);
    }
    if Matches(line, host, port) {
      assert Matches(all[|lines|], host, port);
    }
  }

  /** `_KnownHosts` */
  class KnownHosts {
    var lines: map<string, seq<Line>>

    constructor (lines: map<string, seq<Line>>)
      ensures this.lines == lines
    {
      this.lines := lines;
    }

    predicate Known(host: string, port: nat)
      reads this
    {
      exists file <- lines :: Knows(lines[file], host, port)
    }

    /** `add` */
    method Add(file: string, line: Line)
      modifies this
      ensures lines == old(lines)[file := (if file in old(lines) then old(lines)[file] else []) + [line]]
    {
      if file !in lines {
        lines := lines[file := []];
      }
      lines := lines[file := lines[file] + [line]];
    }

    /** And no other host becomes known by it, nor this one on another port, unless it is for the default port. */
    lemma AddMakesOnlyItKnown(
      before: KnownLines, file: string, host: string, port: nat, other: string, otherPort: nat)
      requires lines == before[file := (if file in before then before[file] else []) + [Line({Pattern(host, port)})]]
      requires PlainName(host) && PlainName(other)
      ensures Known(other, otherPort) <==>
        KnowsIn(before, other, otherPort) || (other == host && (otherPort == port || port == 22))
    {
      var line := Line({Pattern(host, port)});
      AcceptedForItsPort(host, port, other, otherPort);
      KnowsMore(if file in before then before[file] else [], line, other, otherPort);
      if KnowsIn(before, other, otherPort) {
        var f :| f in before && Knows(before[f], other, otherPort);
        assert Knows(lines[f], other, otherPort);
      }
      if Matches(line, other, otherPort) {
        assert Knows(lines[file], other, otherPort);
      }
    }

    /** What makes the connect loop end: the host whose key is accepted is known from then on. */
    lemma AddMakesItKnown(before: map<string, seq<Line>>, file: string, host: string, port: nat)
      requires lines == before[file := (if file in before then before[file] else []) + [Line({Pattern(host, port)})]]
      ensures Known(host, port)
    {
      var added := lines[file];
      assert Matches(added[|added| - 1], host, port);
      assert Knows(added, host, port);
    }
  }

  // For whom a key is accepted

  predicate PlainName(host: string) {
    host != "" && host[0] != '['
  }

  lemma PatternsAreApart(host: string, port: nat, other: string, otherPort: nat)
    requires PlainName(host) && PlainName(other)
    ensures Pattern(host, port) == Pattern(other, otherPort) <==> host == other && port == otherPort
  {
    DecimalReadsBack(port);
    DecimalReadsBack(otherPort);
    if Pattern(host, port) == Pattern(other, otherPort) && port != DEFAULT_PORT && otherPort != DEFAULT_PORT {
      assert Pattern(host, port) == ("[" + host + "]") + ":" + Decimal(port);
      assert Pattern(other, otherPort) == ("[" + other + "]") + ":" + Decimal(otherPort);
      PortIsLast("[" + host + "]", Decimal(port), "[" + other + "]", Decimal(otherPort));
      assert ("[" + host + "]")[1..|host| + 1] == host && ("[" + other + "]")[1..|other| + 1] == other;
    }
  }

  lemma ColonWithin(name: string, digits: string, other: string, otherDigits: string)
    requires name + ":" + digits == other + ":" + otherDigits && |digits| < |otherDigits|
    ensures ':' in otherDigits
  {
    var all := other + ":" + otherDigits;
    assert all[|name|] == ':';
    assert all[|name|] == otherDigits[|name| - |other| - 1];
  }

  lemma NoColonIn(digits: string)
    requires AllDigits(digits)
    ensures ':' !in digits
  {
  }

  lemma PortIsLast(name: string, digits: string, other: string, otherDigits: string)
    requires name + ":" + digits == other + ":" + otherDigits && AllDigits(digits) && AllDigits(otherDigits)
    ensures name == other && digits == otherDigits
  {
    NoColonIn(digits);
    NoColonIn(otherDigits);
    if |digits| < |otherDigits| {
      ColonWithin(name, digits, other, otherDigits);
    } else if |digits| > |otherDigits| {
      ColonWithin(other, otherDigits, name, digits);
    } else {
      var all, again := name + ":" + digits, other + ":" + otherDigits;
      assert all[..|name|] == name && all[|name| + 1..] == digits;
      assert again[..|other|] == other && again[|other| + 1..] == otherDigits;
    }
  }

  /** A key accepted for one port is good for that port; one for port 22, for every port of the host. */
  lemma AcceptedForItsPort(host: string, port: nat, other: string, otherPort: nat)
    requires PlainName(host) && PlainName(other)
    ensures Matches(Line({Pattern(host, port)}), other, otherPort)
       <==> other == host && (otherPort == port || port == 22)
  {
    PatternsAreApart(host, port, other, otherPort);
    PatternsAreApart(host, port, other, DEFAULT_PORT);
  }

  // The world

  /** How an attempt to connect ends. */
  datatype Attempt =
    | Succeeds
    | KeyRefused(untrusted: bool)       // after asking the client about a key it does not trust, or not
    | Denied(passwordOffered: bool)
    | Fails

  /** What the user does at a prompt. */
  datatype Reply = Answers(accepts: bool, password: string) | Interrupts

  datatype Failure =
    | HostKeyChanged | HostKeyNotVerifiable | HostKeyRejected | PermissionDenied | Other | KeyboardInterrupt

  datatype ConnectionInfo = ConnectionInfo(host: string, password: Option<string>, passwordPrompt: bool)

  /** `_InteractiveClient` */
  class InteractiveClient {
    const knownHosts: KnownHosts
    var unknownHostKey: bool
    var changedHostKey: bool
    var passwordOffered: bool

    constructor (knownHosts: KnownHosts)
      ensures this.knownHosts == knownHosts
      ensures !unknownHostKey && !changedHostKey && !passwordOffered
    {
      this.knownHosts := knownHosts;
      unknownHostKey, changedHostKey, passwordOffered := false, false, false;
    }

    /** `validate_host_public_key`, which always refuses. */
    method ValidateHostPublicKey(host: string, port: nat)
      modifies this
      ensures knownHosts.Known(host, port) ==> changedHostKey && unknownHostKey == old(unknownHostKey)
      ensures !knownHosts.Known(host, port) ==> unknownHostKey && changedHostKey == old(changedHostKey)
      ensures passwordOffered == old(passwordOffered)
    {
      if !knownHosts.Known(host, port) {
        unknownHostKey := true;
      } else {
        changedHostKey := true;
      }
    }

    /** What asyncssh calls during an attempt that ends so. */
    method Attempted(attempt: Attempt, host: string, port: nat)
      requires !unknownHostKey && !changedHostKey && !passwordOffered
      modifies this
      ensures unknownHostKey == (attempt == KeyRefused(true) && !knownHosts.Known(host, port))
      ensures changedHostKey == (attempt == KeyRefused(true) && knownHosts.Known(host, port))
      ensures passwordOffered == (attempt == Denied(true))
    {
      if attempt == KeyRefused(true) {
        ValidateHostPublicKey(host, port);
      }
      if attempt == Denied(true) {
        passwordOffered := true;
      }
    }
  }

  /** Whether a password is asked for after a denial, with `prompts` asked for before. */
  predicate AsksForPassword(info: ConnectionInfo, offered: bool, prompts: nat) {
    info.password.None? && info.passwordPrompt && offered && prompts < PASSWORD_ATTEMPTS
  }

  /** The password in use after `prompts` prompts. */
  function PasswordInUse(info: ConnectionInfo, passwords: nat -> Reply, prompts: nat): Option<string> {
    if prompts == 0 then info.password
    else
      match passwords(prompts - 1)
      case Answers(_, password) => Some(password)
      case Interrupts => None
  }

  /** What each failure means, of the last attempt and prompt. */
  ghost predicate Explained(
    failure: Failure, info: ConnectionInfo, last: Attempt, known: bool, passwords: nat -> Reply, key: Reply, prompts: nat)
  {
    match failure
    case HostKeyChanged => last == KeyRefused(true) && known
    case HostKeyNotVerifiable => last == KeyRefused(false)
    case HostKeyRejected => last == KeyRefused(true) && !known && key.Answers? && !key.accepts
    case PermissionDenied => last.Denied? && !AsksForPassword(info, last.passwordOffered, prompts)
    case Other => last == Fails
    case KeyboardInterrupt =>
      || (last == KeyRefused(true) && !known && key == Interrupts)
      || (last.Denied? && prompts > 0 && passwords(prompts - 1) == Interrupts
          && AsksForPassword(info, last.passwordOffered, prompts - 1))
  }

  /** What follows from an attempt. */
  datatype Verdict = Connected | Fail(failure: Failure) | AskAboutKey | AskForPassword

  function VerdictOn(info: ConnectionInfo, attempt: Attempt, known: bool, prompts: nat): Verdict {
    match attempt
    case Succeeds => Connected
    case Fails => Fail(Other)
    case KeyRefused(untrusted) =>
      if !untrusted then Fail(HostKeyNotVerifiable) else if known then Fail(HostKeyChanged) else AskAboutKey
    case Denied(offered) =>
      if AsksForPassword(info, offered, prompts) then AskForPassword else Fail(PermissionDenied)
  }

  /** One turn's attempt, and what its `except` clauses make of it. */
  method TryOnce(
    info: ConnectionInfo, port: nat, knownHosts: KnownHosts, attempt: Attempt, prompts: nat, ghost known: bool)
    returns (v: Verdict)
    requires prompts <= PASSWORD_ATTEMPTS && known == knownHosts.Known(info.host, port)
    ensures v == VerdictOn(info, attempt, known, prompts)
    ensures known == knownHosts.Known(info.host, port)
  {
    var client := new InteractiveClient(knownHosts);
    client.Attempted(attempt, info.host, port);
    match attempt {
      case Succeeds => return Connected;
      case Fails => return Fail(Other);
      case KeyRefused(_) =>
        if client.changedHostKey {
          return Fail(HostKeyChanged);
        }
        if !client.unknownHostKey {
          return Fail(HostKeyNotVerifiable);
        }
        return AskAboutKey;
      case Denied(_) =>
        if || info.password.Some? || !info.passwordPrompt
           || !client.passwordOffered || prompts == PASSWORD_ATTEMPTS {
          return Fail(PermissionDenied);
        }
        return AskForPassword;
    }
  }

  /** `_accept_host_key`, and `add`. */
  method AcceptHostKey(knownHosts: KnownHosts, file: string, host: string, port: nat, key: Reply)
    returns (r: Result<(), Failure>)
    modifies knownHosts
    ensures r == match key
                 case Interrupts => Err(KeyboardInterrupt)
                 case Answers(accepts, _) => if accepts then Ok(()) else Err(HostKeyRejected)
    ensures r.Ok? ==> knownHosts.Known(host, port)
    ensures r.Ok? && PlainName(host) ==>
              forall other, otherPort: nat :: PlainName(other) ==>
                (knownHosts.Known(other, otherPort) <==>
                  old(knownHosts.Known(other, otherPort)) || (other == host && (otherPort == port || port == 22)))
    ensures r.Err? ==> knownHosts.lines == old(knownHosts.lines)
  {
    if key.Interrupts? {
      return Err(KeyboardInterrupt);
    }
    if !key.accepts {
      return Err(HostKeyRejected);
    }
    ghost var before := knownHosts.lines;
    knownHosts.Add(file, Line({Pattern(host, port)}));
    knownHosts.AddMakesItKnown(before, file, host, port);
    if PlainName(host) {
      forall other, otherPort: nat | PlainName(other)
        ensures knownHosts.Known(other, otherPort) <==>
          KnowsIn(before, other, otherPort) || (other == host && (otherPort == port || port == 22))
      {
        knownHosts.AddMakesOnlyItKnown(before, file, host, port, other, otherPort);
      }
    }
    return Ok(());
  }

  // The loop, in terms of the attempts and replies alone

  /** How many of the first `n` attempts were denied. */
  function Denials(attempts: nat -> Attempt, n: nat): nat {
    if n == 0 then 0 else Denials(attempts, n - 1) + if attempts(n - 1).Denied? then 1 else 0
  }

  /** Whether the host is known at the `n`th attempt: from the start, or since its key was accepted. */
  ghost predicate KnownBy(attempts: nat -> Attempt, known: bool, n: nat) {
    known || exists i :: 0 <= i < n && attempts(i) == KeyRefused(true)
  }

  /** No password is asked for: there is one, or prompting is off, or the server offers none, or it was asked for thrice. */
  predicate NoMorePasswords(info: ConnectionInfo, offered: bool, denials: nat) {
    info.password.Some? || !info.passwordPrompt || !offered || denials == 3
  }

  /** The `n`th attempt leads to a prompt whose answer leads to another attempt. */
  ghost predicate GoesOn(
    info: ConnectionInfo, attempts: nat -> Attempt, passwords: nat -> Reply, key: Reply, known: bool, n: nat)
  {
    match attempts(n)
    case Denied(offered) =>
      && !NoMorePasswords(info, offered, Denials(attempts, n))
      && passwords(Denials(attempts, n)).Answers?
    case KeyRefused(untrusted) => untrusted && !KnownBy(attempts, known, n) && key.Answers? && key.accepts
    case _ => false
  }

  /** What comes of the `n`th attempt, which is the last. */
  ghost function Outcome(
    info: ConnectionInfo, attempts: nat -> Attempt, passwords: nat -> Reply, key: Reply, known: bool, n: nat)
    : Result<(), Failure>
  {
    match attempts(n)
    case Succeeds => Ok(())
    case Fails => Err(Other)
    case KeyRefused(untrusted) =>
      if !untrusted then Err(HostKeyNotVerifiable)
      else if KnownBy(attempts, known, n) then Err(HostKeyChanged)
      else if key.Interrupts? then Err(KeyboardInterrupt)
      else Err(HostKeyRejected)
    case Denied(offered) =>
      if NoMorePasswords(info, offered, Denials(attempts, n)) then Err(PermissionDenied) else Err(KeyboardInterrupt)
  }

  ghost predicate AllGoOn(
    info: ConnectionInfo, attempts: nat -> Attempt, passwords: nat -> Reply, key: Reply, known: bool, n: nat)
  {
    forall i :: 0 <= i < n ==> GoesOn(info, attempts, passwords, key, known, i)
  }

  /** Each attempt is made with the password in use by then. */
  ghost predicate Tries(
    info: ConnectionInfo, attempts: nat -> Attempt, passwords: nat -> Reply, tried: seq<Option<string>>)
  {
    forall i :: 0 <= i < |tried| ==> tried[i] == PasswordInUse(info, passwords, Denials(attempts, i))
  }

  lemma TriesNext(info: ConnectionInfo, attempts: nat -> Attempt, passwords: nat -> Reply, tried: seq<Option<string>>)
    requires Tries(info, attempts, passwords, tried)
    ensures Tries(info, attempts, passwords, tried + [PasswordInUse(info, passwords, Denials(attempts, |tried|))])
  {
  }

  /** The verdict on the next attempt, by what went before. */
  lemma VerdictMeans(
    info: ConnectionInfo, attempts: nat -> Attempt, passwords: nat -> Reply, key: Reply, known: bool, n: nat)
    requires AllGoOn(info, attempts, passwords, key, known, n)
    requires Denials(attempts, n) <= 3
    ensures var denials := Denials(attempts, n);
            var v := VerdictOn(info, attempts(n), KnownBy(attempts, known, n), denials);
            && (v == Connected ==>
                  !GoesOn(info, attempts, passwords, key, known, n)
                  && Outcome(info, attempts, passwords, key, known, n) == Ok(()))
            && (v.Fail? ==>
                  !GoesOn(info, attempts, passwords, key, known, n) && v.failure != KeyboardInterrupt
                  && Outcome(info, attempts, passwords, key, known, n) == Err(v.failure))
            && (v == AskAboutKey ==>
                  && attempts(n) == KeyRefused(true) && !KnownBy(attempts, known, n)
                  && (key.Answers? && key.accepts ==> AllGoOn(info, attempts, passwords, key, known, n + 1))
                  && (!(key.Answers? && key.accepts) ==>
                        !GoesOn(info, attempts, passwords, key, known, n)
                        && Outcome(info, attempts, passwords, key, known, n)
                          == Err(if key.Interrupts? then KeyboardInterrupt else HostKeyRejected)))
            && (v == AskForPassword ==>
                  && attempts(n).Denied? && denials < 3
                  && (passwords(denials).Answers? ==> AllGoOn(info, attempts, passwords, key, known, n + 1))
                  && (passwords(denials).Interrupts? ==> !GoesOn(info, attempts, passwords, key, known, n))
                  && Outcome(info, attempts, passwords, key, known, n) == Err(KeyboardInterrupt))
            && (attempts(n).Denied? ==> v == AskForPassword || v == Fail(PermissionDenied))
            && (v == Connected || v.Fail? ==> attempts(n) == KeyRefused(true) ==> KnownBy(attempts, known, n))
  {
  }

  lemma KnownNext(attempts: nat -> Attempt, known: bool, n: nat)
    ensures KnownBy(attempts, known, n + 1) <==> KnownBy(attempts, known, n) || attempts(n) == KeyRefused(true)
    ensures known ==> KnownBy(attempts, known, n)
    ensures Denials(attempts, n + 1) == Denials(attempts, n) + if attempts(n).Denied? then 1 else 0
  {
  }

  /** What the loop has done, and when it ends: its attempts, prompts and passwords, by the world's answers alone. */
  ghost predicate Done(
    info: ConnectionInfo, attempts: nat -> Attempt, passwords: nat -> Reply, key: Reply, known: bool,
    r: Result<(), Failure>, tried: seq<Option<string>>, passwordPrompts: nat, keyPrompts: nat)
  {
    var last := |tried| - 1;
    && last >= 0
    && AllGoOn(info, attempts, passwords, key, known, last) && !GoesOn(info, attempts, passwords, key, known, last)
    && r == Outcome(info, attempts, passwords, key, known, last)
    && Tries(info, attempts, passwords, tried)
    && (passwordPrompts ==
          Denials(attempts, last) + if attempts(last).Denied? && r == Err(KeyboardInterrupt) then 1 else 0)
    && (keyPrompts == if !known && KnownBy(attempts, known, |tried|) then 1 else 0)
  }

  /** Between attempts. */
  ghost predicate Going(
    info: ConnectionInfo, attempts: nat -> Attempt, passwords: nat -> Reply, key: Reply, atFirst: bool, known: bool,
    tried: seq<Option<string>>, passwordPrompts: nat, keyPrompts: nat, password: Option<string>)
  {
    && known == KnownBy(attempts, atFirst, |tried|)
    && keyPrompts == (if !atFirst && known then 1 else 0)
    && passwordPrompts == Denials(attempts, |tried|) <= 3
    && password == PasswordInUse(info, passwords, passwordPrompts)
    && AllGoOn(info, attempts, passwords, key, atFirst, |tried|) && Tries(info, attempts, passwords, tried)
  }

  lemma NothingTried(info: ConnectionInfo, attempts: nat -> Attempt, passwords: nat -> Reply, key: Reply, known: bool)
    ensures Going(info, attempts, passwords, key, known, known, [], 0, 0, info.password)
  {
  }

  /** One more attempt, with the prompt that it may lead to. */
  lemma OneMore(
    info: ConnectionInfo, attempts: nat -> Attempt, passwords: nat -> Reply, key: Reply, atFirst: bool, known: bool,
    tried: seq<Option<string>>, passwordPrompts: nat, keyPrompts: nat, password: Option<string>)
    requires Going(info, attempts, passwords, key, atFirst, known, tried, passwordPrompts, keyPrompts, password)
    ensures known == KnownBy(attempts, atFirst, |tried|)
    ensures var v, now := VerdictOn(info, attempts(|tried|), known, passwordPrompts), tried + [password];
            match v
            case Connected => Done(info, attempts, passwords, key, atFirst, Ok(()), now, passwordPrompts, keyPrompts)
            case Fail(failure) =>
              Done(info, attempts, passwords, key, atFirst, Err(failure), now, passwordPrompts, keyPrompts)
            case AskAboutKey =>
              && !known && keyPrompts == 0
              && (if key.Interrupts?
                  then Done(info, attempts, passwords, key, atFirst, Err(KeyboardInterrupt), now, passwordPrompts, 1)
                  else if !key.accepts
                  then Done(info, attempts, passwords, key, atFirst, Err(HostKeyRejected), now, passwordPrompts, 1)
                  else Going(info, attempts, passwords, key, atFirst, true, now, passwordPrompts, 1, password))
            case AskForPassword =>
              && passwordPrompts < 3
              && match passwords(passwordPrompts)
                 case Interrupts =>
                   Done(info, attempts, passwords, key, atFirst, Err(KeyboardInterrupt), now, passwordPrompts + 1, keyPrompts)
                 case Answers(_, given) =>
                   Going(info, attempts, passwords, key, atFirst, known, now, passwordPrompts + 1, keyPrompts, Some(given))
  {
    hide Tries, AllGoOn, GoesOn, Outcome, VerdictOn, Denials, KnownBy;
    KnownNext(attempts, atFirst, |tried|);
    TriesNext(info, attempts, passwords, tried);
    VerdictMeans(info, attempts, passwords, key, atFirst, |tried|);
  }

  /** The loop of `connect_interactive`. */
  method ConnectLoop(
    info: ConnectionInfo, port: nat, knownHosts: KnownHosts, file: string,
    attempts: nat -> Attempt, passwords: nat -> Reply, key: Reply)
    returns (r: Result<(), Failure>, tried: seq<Option<string>>, passwordPrompts: nat, keyPrompts: nat)
    modifies knownHosts
    ensures Done(info, attempts, passwords, key, old(knownHosts.Known(info.host, port)), r, tried, passwordPrompts, keyPrompts)
    ensures |tried| > 0
         && knownHosts.Known(info.host, port) == KnownBy(attempts, old(knownHosts.Known(info.host, port)), |tried| - 1)
    ensures knownHosts.lines == old(knownHosts.lines)
         || (keyPrompts == 1 && key.Answers? && key.accepts && knownHosts.Known(info.host, port))
  {
    var password := info.password;
    ghost var known := knownHosts.Known(info.host, port);
    ghost var atFirst := known;
    tried, passwordPrompts, keyPrompts := [], 0, 0;
    hide Going, Done, VerdictOn;
    NothingTried(info, attempts, passwords, key, known);
    while true
      invariant known == knownHosts.Known(info.host, port) && passwordPrompts <= PASSWORD_ATTEMPTS
      invariant keyPrompts == 1 ==> key.Answers? && key.accepts && known
      invariant keyPrompts == 0 ==> knownHosts.lines == old(knownHosts.lines)
      invariant keyPrompts <= 1
      invariant Going(info, attempts, passwords, key, atFirst, known, tried, passwordPrompts, keyPrompts, password)
      decreases !known, PASSWORD_ATTEMPTS - passwordPrompts
    {
      OneMore(info, attempts, passwords, key, atFirst, known, tried, passwordPrompts, keyPrompts, password);
      var verdict := TryOnce(info, port, knownHosts, attempts(|tried|), passwordPrompts, known);
      tried := tried + [password];
      match verdict {
        case Connected =>
          return Ok(()), tried, passwordPrompts, keyPrompts;
        case Fail(failure) =>
          return Err(failure), tried, passwordPrompts, keyPrompts;
        case AskAboutKey =>
          keyPrompts := keyPrompts + 1;
          var accepted := AcceptHostKey(knownHosts, file, info.host, port, key);
          if accepted.Err? {
            return accepted, tried, passwordPrompts, keyPrompts;
          }
          known := true;
        case AskForPassword =>
          passwordPrompts := passwordPrompts + 1;
          var reply := passwords(passwordPrompts - 1);
          if reply.Interrupts? {
            return Err(KeyboardInterrupt), tried, passwordPrompts, keyPrompts;
          }
          password := Some(reply.password);
      }
    }
  }

  /** There is a prompt for each attempt but the last. */
  lemma {:induction false} PromptsCount(
    info: ConnectionInfo, attempts: nat -> Attempt, passwords: nat -> Reply, key: Reply, known: bool, n: nat)
    requires AllGoOn(info, attempts, passwords, key, known, n)
    ensures Denials(attempts, n) <= 3
    ensures info.password.Some? || !info.passwordPrompt ==> Denials(attempts, n) == 0
    ensures n == Denials(attempts, n) + if !known && KnownBy(attempts, known, n) then 1 else 0
  {
    if n > 0 {
      PromptsCount(info, attempts, passwords, key, known, n - 1);
      KnownNext(attempts, known, n - 1);
      assert GoesOn(info, attempts, passwords, key, known, n - 1);
    }
  }

  /**
   `connect_interactive`: which attempts are made is `attempts`, the user's replies are
   `passwords` and `key`. With the passwords tried, and how often it asked for one and
   for a key. At most five attempts, three password prompts and one about the key.
   */
  method ConnectInteractive(
    info: ConnectionInfo, port: nat, knownHosts: KnownHosts, file: string,
    attempts: nat -> Attempt, passwords: nat -> Reply, key: Reply)
    returns (r: Result<(), Failure>, tried: seq<Option<string>>, passwordPrompts: nat, keyPrompts: nat)
    modifies knownHosts
    ensures 1 <= |tried| <= 1 + passwordPrompts + keyPrompts
    ensures passwordPrompts <= PASSWORD_ATTEMPTS && keyPrompts <= 1
    ensures info.password.Some? || !info.passwordPrompt ==> passwordPrompts == 0
    ensures old(knownHosts.Known(info.host, port)) ==> keyPrompts == 0
    ensures r.Ok? <==> attempts(|tried| - 1) == Succeeds
    ensures forall i :: 0 <= i < |tried| - 1 ==> attempts(i) == Denied(true) || attempts(i) == KeyRefused(true)
    ensures tried[0] == info.password
    ensures !(r.Err? && r.error == KeyboardInterrupt) ==>
              tried[|tried| - 1] == PasswordInUse(info, passwords, passwordPrompts)
    ensures r.Err? ==>
              Explained(r.error, info, attempts(|tried| - 1), knownHosts.Known(info.host, port), passwords, key, passwordPrompts)
    ensures knownHosts.lines == old(knownHosts.lines)
         || (keyPrompts == 1 && key.Answers? && key.accepts && knownHosts.Known(info.host, port))
    ensures Done(info, attempts, passwords, key, old(knownHosts.Known(info.host, port)), r, tried, passwordPrompts, keyPrompts)
    ensures var last := attempts(|tried| - 1);
            r == Err(PermissionDenied) <==>
              && last.Denied?
              && (|| info.password.Some? || !info.passwordPrompt || !last.passwordOffered
                  || Denials(attempts, |tried| - 1) == 3)
  {
    ghost var known := knownHosts.Known(info.host, port);
    r, tried, passwordPrompts, keyPrompts := ConnectLoop(info, port, knownHosts, file, attempts, passwords, key);
    ghost var last := |tried| - 1;
    hide Done, AllGoOn, Tries;
    EndsAsItShould(info, attempts, passwords, key, known, r, tried, passwordPrompts, keyPrompts);
    return;
  }

  lemma EndsAsItShould(
    info: ConnectionInfo, attempts: nat -> Attempt, passwords: nat -> Reply, key: Reply, known: bool,
    r: Result<(), Failure>, tried: seq<Option<string>>, passwordPrompts: nat, keyPrompts: nat)
    requires Done(info, attempts, passwords, key, known, r, tried, passwordPrompts, keyPrompts)
    ensures 1 <= |tried| <= 1 + passwordPrompts + keyPrompts
    ensures passwordPrompts <= 3 && keyPrompts <= 1 && (known ==> keyPrompts == 0)
    ensures info.password.Some? || !info.passwordPrompt ==> passwordPrompts == 0
    ensures forall i :: 0 <= i < |tried| - 1 ==> attempts(i) == Denied(true) || attempts(i) == KeyRefused(true)
    ensures tried[0] == info.password
    ensures r != Err(KeyboardInterrupt) ==> tried[|tried| - 1] == PasswordInUse(info, passwords, passwordPrompts)
    ensures r == Outcome(info, attempts, passwords, key, known, |tried| - 1)
    ensures r.Err? ==>
              var now := KnownBy(attempts, known, |tried| - 1);
              Explained(r.error, info, attempts(|tried| - 1), now, passwords, key, passwordPrompts)
  {
    PromptsCount(info, attempts, passwords, key, known, |tried| - 1);
    KnownNext(attempts, known, |tried| - 1);
    forall i | 0 <= i < |tried| - 1
      ensures attempts(i) == Denied(true) || attempts(i) == KeyRefused(true)
    {
      assert GoesOn(info, attempts, passwords, key, known, i);
    }
  }

  // The known hosts file

  /** The file with its last line ended. */
  function WithLineEnded(content: seq<nat>): seq<nat> {
    if content != [] && content[|content| - 1] != J.NEWLINE then content + [J.NEWLINE] else content
  }

  /** `_append_line`: what the file holds then. */
  function Appended(content: seq<nat>, line: seq<nat>): seq<nat> {
    WithLineEnded(content) + (line + [J.NEWLINE])
  }

  /** The file's lines are those it had, and the new one, even if the last one was not ended. */
  lemma AppendsOneLine(content: seq<nat>, line: seq<nat>)
    requires J.NEWLINE !in line
    ensures J.Lines(Appended(content, line)) == J.Lines(content) + [line]
  {
    LinesEnded(content);
    AnotherLine(WithLineEnded(content), J.Lines(content), line);
  }

  lemma LinesEnded(content: seq<nat>)
    ensures J.Split(WithLineEnded(content)) == J.Lines(content) + [[]]
  {
    if content == [] {
      assert J.Split(content) == [[]];
    } else if content[|content| - 1] == J.NEWLINE {
      EndedText(content);
    } else {
      UnendedText(content);
    }
  }

  lemma AnotherLine(begun: seq<nat>, lines: seq<seq<nat>>, line: seq<nat>)
    requires J.NEWLINE !in line && J.Split(begun) == lines + [[]]
    ensures J.Lines(begun + (line + [J.NEWLINE])) == lines + [line]
  {
    var ended := line + [J.NEWLINE];
    J.SplitParts(begun, ended);
    J.Apart(lines, []);
    assert [] + ended == ended;
    EndedLine(line);
    J.Apart(lines + [line], []);
    assert lines + [line, []] == lines + [line] + [[]];
  }

  lemma {:induction false} EndedLine(line: seq<nat>)
    requires J.NEWLINE !in line
    ensures J.Split(line + [J.NEWLINE]) == [line, []]
  {
    if line == [] {
      assert [J.NEWLINE][1..] == [] && line + [J.NEWLINE] == [J.NEWLINE];
    } else {
      EndedLine(line[1..]);
      assert (line + [J.NEWLINE])[1..] == line[1..] + [J.NEWLINE];
      assert [line[0]] + line[1..] == line;
    }
  }

  /** A text's last line, and with one more character. */
  lemma LastLineGrows(front: seq<nat>, c: nat)
    ensures var s := J.Split(front);
            var last := s[|s| - 1];
            J.Split(front + [c]) == if c == J.NEWLINE then s + [[]] else s[..|s| - 1] + [last + [c]]
  {
    var s := J.Split(front);
    var last := s[|s| - 1];
    J.SplitsIntoLines(front);
    J.SplitParts(front, [c]);
    if c == J.NEWLINE {
      EndedLine(last);
      assert s[..|s| - 1] + [last, []] == s + [[]];
    } else {
      J.OneLine(last + [c]);
    }
  }

  lemma EndedText(content: seq<nat>)
    requires content != [] && content[|content| - 1] == J.NEWLINE
    ensures J.Split(content) == J.Lines(content) + [[]]
  {
    var front := content[..|content| - 1];
    LastLineGrows(front, J.NEWLINE);
    assert front + [J.NEWLINE] == content;
    J.Apart(J.Split(front), []);
  }

  lemma LastLineIsBegun(content: seq<nat>)
    requires content != [] && content[|content| - 1] != J.NEWLINE
    ensures var s := J.Split(content); s[|s| - 1] != []
  {
    var front, c := content[..|content| - 1], content[|content| - 1];
    var s := J.Split(front);
    LastLineGrows(front, c);
    assert front + [c] == content;
    J.Apart(s[..|s| - 1], s[|s| - 1] + [c]);
  }

  lemma UnendedText(content: seq<nat>)
    requires content != [] && content[|content| - 1] != J.NEWLINE
    ensures J.Split(content + [J.NEWLINE]) == J.Lines(content) + [[]]
  {
    LastLineIsBegun(content);
    LastLineGrows(content, J.NEWLINE);
  }
}
