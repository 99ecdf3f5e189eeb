/**
 Many tunnels on one machine: their alias locks, which the OS frees when a process
 ends, and the Host blocks they publish, withdraw and prune. Any number of processes
 take their steps in any order, and may be killed between any two.
 */
module Tunnels {
  import opened Prelude

  // Aliases

  predicate LetterOrDigit(c: char) {
    'A' <= c <= 'Z' || 'a' <= c <= 'z' || '0' <= c <= '9'
  }

  /** `validate_alias` */
  predicate ValidAlias(alias: string) {
    && alias != "" && LetterOrDigit(alias[0])
    && forall i :: 0 <= i < |alias| ==> LetterOrDigit(alias[i]) || alias[i] in {'_', '.', '-'}
  }

  /** So an alias is one word of an SSH configuration, no pattern there, and one part of a path. */
  lemma AliasesArePlain(alias: string)
    requires ValidAlias(alias)
    ensures alias[0] !in {'.', '-', '_'} && alias != "" && alias != ".."
    ensures forall c :: c in alias ==> '-' <= c <= 'z' && c !in {'/', '*', '?', '!', '#', '%', '"', '=', '\\', '[', ']', ',', '@', ':'}
  {
    forall c | c in alias
      ensures '-' <= c <= 'z' && c !in {'/', '*', '?', '!', '#', '%', '"', '=', '\\', '[', ']', ',', '@', ':'}
    {
      var i :| 0 <= i < |alias| && alias[i] == c;
    }
  }

  /** And every letter, digit, underscore, dot and hyphen may be in one. */
  lemma LettersMayBe(first: char, c: char)
    requires first in "Aa0Zz9" && (c in "AZaz09_.-" || 'A' < c < 'Z' || 'a' < c < 'z' || '0' < c < '9')
    ensures ValidAlias([first, c])
  {
  }

  // The machine

  /** A tunnel is known by the moment it took its lock; a process that asks about locks, by a number. */
  datatype Holder = ByTunnel(tunnel: nat) | ByProber(prober: nat)

  /**
   Until its publication; after it, whether the block could be `written` or not, which
   only warns; having given up on it; and after its withdrawal, however that went.
   */
  datatype Phase = Starting | Serving(port: nat, written: bool) | GivenUp | Leaving

  /** A tunnel whose process runs, inside `alias_lock(alias)`. */
  datatype Tunnel = Tunnel(alias: string, phase: Phase)

  /** A process in `prune_stale_active_configs` that has the lock, or has let go of it and found it free. */
  datatype Prober = Probing(name: string) | Doomed(name: string, since: nat)

  /** A Host block; its owner is the tunnel that wrote it, or None for a file of somebody else's. */
  datatype Block = Block(owner: Option<nat>, port: nat)

  /** A block that a publication given up on may still write. */
  datatype Late = Late(alias: string, port: nat)

  /** How a withdrawal goes: the block is gone, the unlink fails, or it is given up on and may still come. */
  datatype Withdrawal = Done | Refused | TimedOut

  /** The locks, and the processes that may have them. */
  datatype Keys = Keys(
    locks: map<string, Holder>,
    lockFiles: set<string>,
    tunnels: map<nat, Tunnel>,
    probers: map<nat, Prober>)

  /**
   The files `active-<name>.conf`, by name; what a tunnel's threads may still do to
   them without it; and the tunnels that were killed, or may leave a block.
   */
  datatype Disk = Disk(
    blocks: map<string, Block>,
    lateWrites: map<nat, Late>,
    lateUnlinks: map<nat, string>,
    left: set<nat>)

  datatype State = State(clock: nat, k: Keys, d: Disk)

  datatype Event =
    | CreateLockFile(alias: string)
    | Acquire(alias: string)
    | Publish(tunnel: nat, port: nat, written: bool)
    | GiveUp(tunnel: nat, port: nat)
    | Withdraw(tunnel: nat, how: Withdrawal)
    | Release(tunnel: nat)
    | LateWrite(tunnel: nat)
    | LateUnlink(tunnel: nat)
    | Fizzle(tunnel: nat)             // what was late fails
    | Kill(tunnel: nat)
    | Probe(prober: nat, name: string)
    | Free(prober: nat)
    | Unlink(prober: nat)
    | Abandon(prober: nat)            // it is killed, or raises an error
    | Drop(name: string, port: nat)   // somebody else leaves a file

  function Init(blocks: map<string, Block>): State {
    State(
      0,
      Keys(map[], {}, map[], map[]),
      Disk(map name | name in blocks :: Block(None, blocks[name].port), map[], map[], {}))
  }

  // What events do to the locks and processes; one that cannot happen does nothing.

  function End(k: Keys, tunnel: nat): Keys
    requires tunnel in k.tunnels
  {
    k.(tunnels := k.tunnels - {tunnel}, locks := k.locks - {k.tunnels[tunnel].alias})
  }

  function Turn(k: Keys, tunnel: nat, phase: Phase): Keys
    requires tunnel in k.tunnels
  {
    k.(tunnels := k.tunnels[tunnel := Tunnel(k.tunnels[tunnel].alias, phase)])
  }

  predicate IsStarting(k: Keys, tunnel: nat) {
    tunnel in k.tunnels && k.tunnels[tunnel].phase.Starting?
  }

  predicate MayWithdraw(k: Keys, tunnel: nat) {
    tunnel in k.tunnels && !k.tunnels[tunnel].phase.Leaving?
  }

  predicate IsDoomed(k: Keys, prober: nat) {
    prober in k.probers && k.probers[prober].Doomed?
  }

  predicate IsProbing(k: Keys, prober: nat) {
    prober in k.probers && k.probers[prober].Probing?
  }

  /** `alias_locked`, up to its answer: a prober takes a lock that is free. */
  function Probed(k: Keys, prober: nat, name: string, now: nat): Keys {
    if prober in k.probers then k
    else if !ValidAlias(name) || name !in k.lockFiles then k.(probers := k.probers[prober := Doomed(name, now)])
    else if name in k.locks then k
    else k.(locks := k.locks[name := ByProber(prober)], probers := k.probers[prober := Probing(name)])
  }

  predicate OfProber(e: Event) {
    e.Probe? || e.Free? || e.Unlink? || e.Abandon?
  }

  function ProbersNext(k: Keys, e: Event, now: nat): Keys {
    match e
    case Probe(p, name) => Probed(k, p, name, now)
    case Free(p) =>
      if !IsProbing(k, p) then k
      else
        var name := k.probers[p].name;
        k.(locks := k.locks - {name}, probers := k.probers[p := Doomed(name, now)])
    case Unlink(p) => if IsDoomed(k, p) then k.(probers := k.probers - {p}) else k
    case Abandon(p) =>
      if p !in k.probers then k
      else k.(locks := if IsProbing(k, p) then k.locks - {k.probers[p].name} else k.locks, probers := k.probers - {p})
    case _ => k
  }

  function TunnelsNext(k: Keys, e: Event, now: nat): Keys {
    match e
    case CreateLockFile(alias) => if ValidAlias(alias) then k.(lockFiles := k.lockFiles + {alias}) else k
    case Acquire(alias) =>
      if !ValidAlias(alias) || alias in k.locks then k
      else Keys(
        k.locks[alias := ByTunnel(now)], k.lockFiles + {alias}, k.tunnels[now := Tunnel(alias, Starting)], k.probers)
    case Publish(t, port, written) => if IsStarting(k, t) then Turn(k, t, Serving(port, written)) else k
    case GiveUp(t, _) => if IsStarting(k, t) then Turn(k, t, GivenUp) else k
    case Withdraw(t, _) => if MayWithdraw(k, t) then Turn(k, t, Leaving) else k
    case Release(t) =>
      if t in k.tunnels && (k.tunnels[t].phase.Starting? || k.tunnels[t].phase.Leaving?) then End(k, t) else k
    case Kill(t) => if t in k.tunnels then End(k, t) else k
    case _ => k
  }

  function KeysNext(k: Keys, e: Event, now: nat): Keys {
    if OfProber(e) then ProbersNext(k, e, now) else TunnelsNext(k, e, now)
  }

  // And to the files

  function Published(d: Disk, tunnel: nat, alias: string, port: nat, written: bool): Disk {
    if written then d.(blocks := d.blocks[alias := Block(Some(tunnel), port)]) else d
  }

  function Withdrawn(d: Disk, tunnel: nat, alias: string, how: Withdrawal): Disk {
    match how
    case Done => d.(blocks := d.blocks - {alias})
    case Refused => d.(left := d.left + {tunnel})
    case TimedOut => d.(lateUnlinks := d.lateUnlinks[tunnel := alias], left := d.left + {tunnel})
  }

  /** Nothing of the tunnel is to come any more. */
  function Quiet(d: Disk, tunnel: nat): Disk {
    d.(lateWrites := d.lateWrites - {tunnel}, lateUnlinks := d.lateUnlinks - {tunnel})
  }

  function WrittenLate(d: Disk, tunnel: nat): Disk
    requires tunnel in d.lateWrites
  {
    var late := d.lateWrites[tunnel];
    d.(blocks := d.blocks[late.alias := Block(Some(tunnel), late.port)], lateWrites := d.lateWrites - {tunnel})
  }

  function UnlinkedLate(d: Disk, tunnel: nat): Disk
    requires tunnel in d.lateUnlinks
  {
    d.(blocks := d.blocks - {d.lateUnlinks[tunnel]}, lateUnlinks := d.lateUnlinks - {tunnel})
  }

  function DiskNext(k: Keys, d: Disk, e: Event): Disk {
    match e
    case Publish(t, port, written) => if IsStarting(k, t) then Published(d, t, k.tunnels[t].alias, port, written) else d
    case GiveUp(t, port) =>
      if IsStarting(k, t)
      then d.(lateWrites := d.lateWrites[t := Late(k.tunnels[t].alias, port)], left := d.left + {t}) else d
    case Withdraw(t, how) => if MayWithdraw(k, t) then Withdrawn(d, t, k.tunnels[t].alias, how) else d
    case LateWrite(t) => if t in d.lateWrites then WrittenLate(d, t) else d
    case LateUnlink(t) => if t in d.lateUnlinks then UnlinkedLate(d, t) else d
    case Fizzle(t) => Quiet(d, t)
    case Kill(t) => if t in k.tunnels then Quiet(d, t).(left := d.left + {t}) else Quiet(d, t)
    case Unlink(p) => if IsDoomed(k, p) then d.(blocks := d.blocks - {k.probers[p].name}) else d
    case Drop(name, port) => if name in d.blocks then d else d.(blocks := d.blocks[name := Block(None, port)])
    case _ => d
  }

  function Next(s: State, e: Event): State {
    State(s.clock + 1, KeysNext(s.k, e, s.clock), DiskNext(s.k, s.d, e))
  }

  function Run(s: State, es: seq<Event>): State {
    if es == [] then s else Next(Run(s, es[..|es| - 1]), es[|es| - 1])
  }

  // What every step keeps of the locks

  /** A tunnel that runs has its alias's lock, in which there is no one else then. */
  ghost predicate TunnelHolds(k: Keys, now: nat, t: nat)
    requires t in k.tunnels
  {
    var alias := k.tunnels[t].alias;
    t < now && ValidAlias(alias) && alias in k.locks && k.locks[alias] == ByTunnel(t)
  }

  ghost predicate ProberHolds(k: Keys, now: nat, p: nat)
    requires p in k.probers
  {
    match k.probers[p]
    case Probing(name) => name in k.locks && k.locks[name] == ByProber(p)
    case Doomed(_, since) => since < now
  }

  /** A lock has a holder that runs: the OS frees those of processes that end. */
  ghost predicate LockIsHeld(k: Keys, alias: string)
    requires alias in k.locks
  {
    && alias in k.lockFiles
    && match k.locks[alias]
       case ByTunnel(t) => t in k.tunnels && k.tunnels[t].alias == alias
       case ByProber(p) => p in k.probers && k.probers[p] == Probing(alias)
  }

  /** Once a prober has found a name's lock free, only a later tunnel can hold it. */
  ghost predicate VerdictStands(k: Keys, p: nat, t: nat)
    requires p in k.probers && t in k.tunnels
  {
    k.probers[p].Doomed? && k.tunnels[t].alias == k.probers[p].name ==> k.probers[p].since < t
  }

  ghost predicate TunnelsHold(k: Keys, now: nat) {
    forall t <- k.tunnels :: TunnelHolds(k, now, t)
  }

  ghost predicate ProbersHold(k: Keys, now: nat) {
    forall p <- k.probers :: ProberHolds(k, now, p)
  }

  ghost predicate LocksAreHeld(k: Keys) {
    forall alias <- k.locks :: LockIsHeld(k, alias)
  }

  ghost predicate VerdictsStand(k: Keys) {
    forall p <- k.probers, t <- k.tunnels :: VerdictStands(k, p, t)
  }

  ghost predicate Locking(k: Keys, now: nat) {
    TunnelsHold(k, now) && ProbersHold(k, now) && LocksAreHeld(k) && VerdictsStand(k)
  }

  lemma ProbersLeaveTheTunnels(k: Keys, e: Event, now: nat)
    requires TunnelsHold(k, now) && ProbersHold(k, now)
    ensures TunnelsHold(ProbersNext(k, e, now), now + 1)
  {
    forall t <- k.tunnels
      ensures TunnelHolds(ProbersNext(k, e, now), now + 1, t)
    {
      assert TunnelHolds(k, now, t);
      assert OfProber(e) && e.prober in k.probers ==> ProberHolds(k, now, e.prober);
    }
  }

  lemma ProbersHoldTheirs(k: Keys, e: Event, now: nat)
    requires ProbersHold(k, now)
    ensures ProbersHold(ProbersNext(k, e, now), now + 1)
  {
    forall p <- ProbersNext(k, e, now).probers
      ensures ProberHolds(ProbersNext(k, e, now), now + 1, p)
    {
      assert p in k.probers ==> ProberHolds(k, now, p);
      assert OfProber(e) && e.prober in k.probers ==> ProberHolds(k, now, e.prober);
    }
  }

  lemma ProbersLocksAreHeld(k: Keys, e: Event, now: nat)
    requires ProbersHold(k, now) && LocksAreHeld(k)
    ensures LocksAreHeld(ProbersNext(k, e, now))
  {
    forall alias <- ProbersNext(k, e, now).locks
      ensures LockIsHeld(ProbersNext(k, e, now), alias)
    {
      assert alias in k.locks ==> LockIsHeld(k, alias);
      assert OfProber(e) && e.prober in k.probers ==> ProberHolds(k, now, e.prober);
    }
  }

  lemma ProbersVerdictsStand(k: Keys, e: Event, now: nat)
    requires Locking(k, now)
    ensures VerdictsStand(ProbersNext(k, e, now))
  {
    forall p <- ProbersNext(k, e, now).probers, t <- k.tunnels
      ensures VerdictStands(ProbersNext(k, e, now), p, t)
    {
      assert TunnelHolds(k, now, t) && LockIsHeld(k, k.tunnels[t].alias);
      assert p in k.probers ==> VerdictStands(k, p, t) && ProberHolds(k, now, p);
    }
  }

  lemma TunnelsHoldTheirs(k: Keys, e: Event, now: nat)
    requires TunnelsHold(k, now)
    ensures TunnelsHold(TunnelsNext(k, e, now), now + 1)
  {
    forall t <- TunnelsNext(k, e, now).tunnels
      ensures TunnelHolds(TunnelsNext(k, e, now), now + 1, t)
    {
      assert t in k.tunnels ==> TunnelHolds(k, now, t);
      assert (e.Kill? || e.Release?) && e.tunnel in k.tunnels ==> TunnelHolds(k, now, e.tunnel);
    }
  }

  lemma TunnelsLeaveTheProbers(k: Keys, e: Event, now: nat)
    requires TunnelsHold(k, now) && ProbersHold(k, now)
    ensures ProbersHold(TunnelsNext(k, e, now), now + 1)
  {
    forall p <- k.probers
      ensures ProberHolds(TunnelsNext(k, e, now), now + 1, p)
    {
      assert ProberHolds(k, now, p);
      assert (e.Kill? || e.Release?) && e.tunnel in k.tunnels ==> TunnelHolds(k, now, e.tunnel);
    }
  }

  lemma TunnelsLocksAreHeld(k: Keys, e: Event, now: nat)
    requires TunnelsHold(k, now) && LocksAreHeld(k)
    ensures LocksAreHeld(TunnelsNext(k, e, now))
  {
    forall alias <- TunnelsNext(k, e, now).locks
      ensures LockIsHeld(TunnelsNext(k, e, now), alias)
    {
      assert alias in k.locks ==> LockIsHeld(k, alias);
      assert (e.Kill? || e.Release?) && e.tunnel in k.tunnels ==> TunnelHolds(k, now, e.tunnel);
      assert now in k.tunnels ==> TunnelHolds(k, now, now);
    }
  }

  lemma TunnelsLeaveTheVerdicts(k: Keys, e: Event, now: nat)
    requires ProbersHold(k, now) && VerdictsStand(k)
    ensures VerdictsStand(TunnelsNext(k, e, now))
  {
    forall p <- k.probers, t <- TunnelsNext(k, e, now).tunnels
      ensures VerdictStands(TunnelsNext(k, e, now), p, t)
    {
      assert ProberHolds(k, now, p);
      assert t in k.tunnels ==> VerdictStands(k, p, t);
    }
  }

  lemma LockingKeeps(k: Keys, e: Event, now: nat)
    requires Locking(k, now)
    ensures Locking(KeysNext(k, e, now), now + 1)
  {
    if OfProber(e) {
      ProbersLeaveTheTunnels(k, e, now);
      ProbersHoldTheirs(k, e, now);
      ProbersLocksAreHeld(k, e, now);
      ProbersVerdictsStand(k, e, now);
    } else {
      TunnelsHoldTheirs(k, e, now);
      TunnelsLeaveTheProbers(k, e, now);
      TunnelsLocksAreHeld(k, e, now);
      TunnelsLeaveTheVerdicts(k, e, now);
    }
  }

  // And of the blocks

  predicate HasLeft(phase: Phase) {
    phase.GivenUp? || phase.Leaving?
  }

  /** A running tunnel that is not leaving has left nothing. */
  ghost predicate LeavesFirst(k: Keys, d: Disk, t: nat)
    requires t in k.tunnels
  {
    t in d.left ==> HasLeft(k.tunnels[t].phase)
  }

  ghost predicate AllLeaveFirst(s: State) {
    && (forall t <- s.k.tunnels :: LeavesFirst(s.k, s.d, t))
    && (forall t <- s.d.left :: t < s.clock)
  }

  /** A block's owner serves on its port, or has left it behind. */
  ghost predicate IsOwned(s: State, name: string, block: Block) {
    block.owner.Some? ==>
      var t := block.owner.value;
      && t < s.clock
      && (t in s.k.tunnels && t !in s.d.left ==> s.k.tunnels[t] == Tunnel(name, Serving(block.port, true)))
      && (t in s.k.tunnels && t in s.d.left ==> s.k.tunnels[t].alias == name)
      && (t !in s.k.tunnels ==> t in s.d.left)
  }

  ghost predicate BlocksAreOwned(s: State) {
    forall name <- s.d.blocks :: IsOwned(s, name, s.d.blocks[name])
  }

  /** What tunnel `u` may still do to the alias's block comes from before whoever has the alias now. */
  ghost predicate IsLate(s: State, u: nat, alias: string) {
    && u < s.clock && u in s.d.left
    && (u in s.k.tunnels ==> s.k.tunnels[u].alias == alias && HasLeft(s.k.tunnels[u].phase))
    && forall t <- s.k.tunnels :: s.k.tunnels[t].alias == alias ==> u <= t
  }

  ghost predicate LateOnesAreLate(s: State) {
    && (forall u <- s.d.lateWrites :: IsLate(s, u, s.d.lateWrites[u].alias))
    && (forall u <- s.d.lateUnlinks :: IsLate(s, u, s.d.lateUnlinks[u]))
  }

  ghost predicate Inv(s: State) {
    Locking(s.k, s.clock) && AllLeaveFirst(s) && BlocksAreOwned(s) && LateOnesAreLate(s)
  }

  /** How the tunnels come and go: one is as it was, or goes on, or is new; one that goes was killed, or has no block. */
  lemma TunnelsGoOn(s: State, e: Event)
    requires TunnelsHold(s.k, s.clock)
    ensures s.d.left <= Next(s, e).d.left
    ensures forall t <- Next(s, e).k.tunnels ::
              if t in s.k.tunnels
              then && Next(s, e).k.tunnels[t].alias == s.k.tunnels[t].alias
                   && (Next(s, e).k.tunnels[t] == s.k.tunnels[t]
                       || HasLeft(Next(s, e).k.tunnels[t].phase)
                       || (s.k.tunnels[t].phase.Starting? && !HasLeft(Next(s, e).k.tunnels[t].phase)))
              else t == s.clock && Next(s, e).k.tunnels[t].phase.Starting?
  {
    assert s.clock in s.k.tunnels ==> TunnelHolds(s.k, s.clock, s.clock);
  }

  lemma AllStillLeaveFirst(s: State, e: Event)
    requires TunnelsHold(s.k, s.clock) && AllLeaveFirst(s)
    ensures AllLeaveFirst(Next(s, e))
  {
    TunnelsGoOn(s, e);
    LeavingAll(s, e);
    forall t <- Next(s, e).k.tunnels
      ensures LeavesFirst(Next(s, e).k, Next(s, e).d, t)
    {
      assert t in s.k.tunnels ==> LeavesFirst(s.k, s.d, t) && TunnelHolds(s.k, s.clock, t);
    }
  }

  /** Who leaves something with this event is leaving, or gone. */
  lemma LeavingAll(s: State, e: Event)
    requires TunnelsHold(s.k, s.clock)
    ensures forall t <- Next(s, e).d.left ::
              || t in s.d.left
              || (t < s.clock && (t in Next(s, e).k.tunnels ==> HasLeft(Next(s, e).k.tunnels[t].phase)))
  {
    if (e.Withdraw? || e.GiveUp? || e.Kill?) && e.tunnel in s.k.tunnels {
      assert TunnelHolds(s.k, s.clock, e.tunnel);
    }
  }

  /** A tunnel's own step on its block. */
  predicate OfItsBlock(e: Event) {
    e.Publish? || e.GiveUp? || e.Withdraw?
  }

  lemma OwnBlocks(s: State, e: Event, name: string)
    requires TunnelsHold(s.k, s.clock) && AllLeaveFirst(s) && BlocksAreOwned(s) && OfItsBlock(e)
    requires name in Next(s, e).d.blocks
    ensures IsOwned(Next(s, e), name, Next(s, e).d.blocks[name])
  {
    if e.Withdraw? {
      WithdrawnBlocks(s, e, name);
    } else {
      assert name in s.d.blocks ==> IsOwned(s, name, s.d.blocks[name]);
      assert e.tunnel in s.k.tunnels ==> TunnelHolds(s.k, s.clock, e.tunnel) && LeavesFirst(s.k, s.d, e.tunnel);
    }
  }

  lemma WithdrawnBlocks(s: State, e: Event, name: string)
    requires TunnelsHold(s.k, s.clock) && BlocksAreOwned(s) && e.Withdraw?
    requires name in Next(s, e).d.blocks
    ensures IsOwned(Next(s, e), name, Next(s, e).d.blocks[name])
  {
    assert name in s.d.blocks && IsOwned(s, name, s.d.blocks[name]);
    assert e.tunnel in s.k.tunnels ==> TunnelHolds(s.k, s.clock, e.tunnel);
  }

  lemma LateBlocks(s: State, e: Event, name: string)
    requires BlocksAreOwned(s) && LateOnesAreLate(s) && (e.LateWrite? || e.LateUnlink?)
    requires name in Next(s, e).d.blocks
    ensures IsOwned(Next(s, e), name, Next(s, e).d.blocks[name])
  {
    assert name in s.d.blocks ==> IsOwned(s, name, s.d.blocks[name]);
    assert e.tunnel in s.d.lateWrites ==> IsLate(s, e.tunnel, s.d.lateWrites[e.tunnel].alias);
  }

  lemma OtherBlocks(s: State, e: Event, name: string)
    requires AllLeaveFirst(s) && BlocksAreOwned(s) && !OfItsBlock(e) && !e.LateWrite? && !e.LateUnlink?
    requires name in Next(s, e).d.blocks
    ensures IsOwned(Next(s, e), name, Next(s, e).d.blocks[name])
  {
    assert name in s.d.blocks ==> IsOwned(s, name, s.d.blocks[name]);
  }

  lemma BlocksAreStillOwned(s: State, e: Event)
    requires Inv(s)
    ensures BlocksAreOwned(Next(s, e))
  {
    forall name <- Next(s, e).d.blocks
      ensures IsOwned(Next(s, e), name, Next(s, e).d.blocks[name])
    {
      if OfItsBlock(e) {
        OwnBlocks(s, e, name);
      } else if e.LateWrite? || e.LateUnlink? {
        LateBlocks(s, e, name);
      } else {
        OtherBlocks(s, e, name);
      }
    }
  }

  lemma LateStays(s: State, e: Event, u: nat, alias: string)
    requires TunnelsHold(s.k, s.clock) && IsLate(s, u, alias)
    ensures IsLate(Next(s, e), u, alias)
  {
    TunnelsGoOn(s, e);
  }

  /** A tunnel that runs is the only one that has its alias. */
  lemma BecomesLate(s: State, e: Event, u: nat)
    requires TunnelsHold(s.k, s.clock) && (e.GiveUp? || e.Withdraw?) && e.tunnel == u
    requires if e.GiveUp? then IsStarting(s.k, u) else MayWithdraw(s.k, u) && e.how == TimedOut
    ensures IsLate(Next(s, e), u, s.k.tunnels[u].alias)
  {
    forall t <- s.k.tunnels | s.k.tunnels[t].alias == s.k.tunnels[u].alias
      ensures t == u
    {
      assert TunnelHolds(s.k, s.clock, u) && TunnelHolds(s.k, s.clock, t);
    }
    assert TunnelHolds(s.k, s.clock, u);
  }

  lemma LateWritesAreLate(s: State, e: Event, u: nat)
    requires TunnelsHold(s.k, s.clock) && LateOnesAreLate(s) && u in Next(s, e).d.lateWrites
    ensures IsLate(Next(s, e), u, Next(s, e).d.lateWrites[u].alias)
  {
    if e.GiveUp? && u == e.tunnel && IsStarting(s.k, u) {
      BecomesLate(s, e, u);
    } else {
      LateStays(s, e, u, s.d.lateWrites[u].alias);
    }
  }

  lemma LateUnlinksAreLate(s: State, e: Event, u: nat)
    requires TunnelsHold(s.k, s.clock) && LateOnesAreLate(s) && u in Next(s, e).d.lateUnlinks
    ensures IsLate(Next(s, e), u, Next(s, e).d.lateUnlinks[u])
  {
    if e.Withdraw? && u == e.tunnel && MayWithdraw(s.k, u) && e.how == TimedOut {
      BecomesLate(s, e, u);
    } else {
      LateStays(s, e, u, s.d.lateUnlinks[u]);
    }
  }

  lemma LateOnesAreStillLate(s: State, e: Event)
    requires TunnelsHold(s.k, s.clock) && LateOnesAreLate(s)
    ensures LateOnesAreLate(Next(s, e))
  {
    var t := Next(s, e);
    forall u <- t.d.lateWrites
      ensures IsLate(t, u, t.d.lateWrites[u].alias)
    {
      LateWritesAreLate(s, e, u);
    }
    forall u <- t.d.lateUnlinks
      ensures IsLate(t, u, t.d.lateUnlinks[u])
    {
      LateUnlinksAreLate(s, e, u);
    }
  }

  lemma NextKeeps(s: State, e: Event)
    requires Inv(s)
    ensures Inv(Next(s, e))
  {
    LockingKeeps(s.k, e, s.clock);
    AllStillLeaveFirst(s, e);
    BlocksAreStillOwned(s, e);
    LateOnesAreStillLate(s, e);
  }

  lemma {:induction false} RunsKeep(blocks: map<string, Block>, es: seq<Event>)
    ensures Inv(Run(Init(blocks), es))
  {
    if es != [] {
      RunsKeep(blocks, es[..|es| - 1]);
      NextKeeps(Run(Init(blocks), es[..|es| - 1]), es[|es| - 1]);
    }
  }

  // What users rely on

  /** At most one running tunnel has an alias. */
  lemma OneTunnelPerAlias(blocks: map<string, Block>, es: seq<Event>, t: nat, u: nat)
    requires var k := Run(Init(blocks), es).k;
             t in k.tunnels && u in k.tunnels && k.tunnels[t].alias == k.tunnels[u].alias
    ensures t == u
  {
    var s := Run(Init(blocks), es);
    RunsKeep(blocks, es);
    assert TunnelHolds(s.k, s.clock, t) && TunnelHolds(s.k, s.clock, u);
  }

  /**
   A tunnel starts exactly when its alias is valid and nobody has the lock: another
   tunnel, or a process that is just asking whether one runs.
   */
  lemma StartsExactlyWhenFree(blocks: map<string, Block>, es: seq<Event>, alias: string)
    ensures var s := Run(Init(blocks), es);
            s.clock in Next(s, Acquire(alias)).k.tunnels <==>
              && ValidAlias(alias)
              && (forall t <- s.k.tunnels :: s.k.tunnels[t].alias != alias)
              && (forall p <- s.k.probers :: s.k.probers[p] != Probing(alias))
  {
    var s := Run(Init(blocks), es);
    RunsKeep(blocks, es);
    LockIsFree(s.k, s.clock, alias);
    assert s.clock in s.k.tunnels ==> TunnelHolds(s.k, s.clock, s.clock);
  }

  lemma LockIsFree(k: Keys, now: nat, alias: string)
    requires Locking(k, now)
    ensures alias !in k.locks <==>
              && (forall t <- k.tunnels :: k.tunnels[t].alias != alias)
              && (forall p <- k.probers :: k.probers[p] != Probing(alias))
  {
    if alias in k.locks {
      assert LockIsHeld(k, alias);
    } else {
      assert forall t <- k.tunnels :: TunnelHolds(k, now, t);
      assert forall p <- k.probers :: ProberHolds(k, now, p);
    }
  }

  /** Every block a tunnel wrote is that of a running one, or was left by one that ended badly. */
  lemma StaleBlocksWereLeft(blocks: map<string, Block>, es: seq<Event>, name: string)
    requires var s := Run(Init(blocks), es); name in s.d.blocks && s.d.blocks[name].owner.Some?
    ensures var s := Run(Init(blocks), es);
            var t := s.d.blocks[name].owner.value;
            || t in s.d.left
            || (t in s.k.tunnels && s.k.tunnels[t] == Tunnel(name, Serving(s.d.blocks[name].port, true)))
  {
    RunsKeep(blocks, es);
    var s := Run(Init(blocks), es);
    assert IsOwned(s, name, s.d.blocks[name]);
  }

  predicate IsServing(k: Keys, t: nat) {
    t in k.tunnels && k.tunnels[t].phase.Serving?
  }

  /** The tunnel serves, and its block, with its port, is where OpenSSH finds it. */
  ghost predicate Reachable(s: State, t: nat) {
    && IsServing(s.k, t)
    && s.k.tunnels[t].alias in s.d.blocks
    && s.d.blocks[s.k.tunnels[t].alias] == Block(Some(t), s.k.tunnels[t].phase.port)
  }

  /** The name of the block that an event takes away from whoever wrote it, or puts another in place of. */
  function Taken(s: State, e: Event): Option<string> {
    if e.Unlink? && IsDoomed(s.k, e.prober) then Some(s.k.probers[e.prober].name)
    else if e.LateUnlink? && e.tunnel in s.d.lateUnlinks then Some(s.d.lateUnlinks[e.tunnel])
    else if e.LateWrite? && e.tunnel in s.d.lateWrites then Some(s.d.lateWrites[e.tunnel].alias)
    else None
  }

  /** The block of the alias that `t` serves is taken. */
  ghost predicate Loses(s: State, e: Event, t: nat) {
    IsServing(s.k, t) && Taken(s, e) == Some(s.k.tunnels[t].alias)
  }

  ghost predicate LosesAt(blocks: map<string, Block>, es: seq<Event>, k: nat, t: nat)
    requires k < |es|
  {
    Loses(Run(Init(blocks), es[..k]), es[k], t)
  }

  ghost predicate Lost(blocks: map<string, Block>, es: seq<Event>, t: nat) {
    exists k :: 0 <= k < |es| && LosesAt(blocks, es, k, t)
  }

  lemma LostSoFar(blocks: map<string, Block>, es: seq<Event>, t: nat)
    requires es != []
    ensures var before := es[..|es| - 1];
            Lost(blocks, es, t) <==> Lost(blocks, before, t) || Loses(Run(Init(blocks), before), es[|es| - 1], t)
  {
    var before := es[..|es| - 1];
    forall k | 0 <= k < |before|
      ensures LosesAt(blocks, es, k, t) == LosesAt(blocks, before, k, t)
    {
      assert es[..k] == before[..k];
    }
    assert LosesAt(blocks, es, |before|, t) == Loses(Run(Init(blocks), before), es[|es| - 1], t);
  }

  /** The block is as it was unless it is taken. */
  lemma BlockStays(s: State, e: Event, t: nat)
    requires TunnelsHold(s.k, s.clock) && LateOnesAreLate(s) && IsServing(s.k, t) && t in Next(s, e).k.tunnels
    requires Next(s, e).k.tunnels[t] == s.k.tunnels[t]
    ensures Reachable(Next(s, e), t) <==> Reachable(s, t) && !Loses(s, e, t)
  {
    if OfItsBlock(e) {
      OthersLeaveIt(s, e, t);
    } else if e.LateWrite? && e.tunnel in s.d.lateWrites {
      assert TunnelHolds(s.k, s.clock, t) && IsLate(s, e.tunnel, s.d.lateWrites[e.tunnel].alias);
    }
  }

  lemma OthersLeaveIt(s: State, e: Event, t: nat)
    requires TunnelsHold(s.k, s.clock) && OfItsBlock(e) && IsServing(s.k, t) && t in Next(s, e).k.tunnels
    requires Next(s, e).k.tunnels[t] == s.k.tunnels[t]
    ensures Reachable(Next(s, e), t) <==> Reachable(s, t)
  {
    assert TunnelHolds(s.k, s.clock, t);
    assert e.tunnel in s.k.tunnels ==> TunnelHolds(s.k, s.clock, e.tunnel);
  }

  lemma StaysReachable(s: State, e: Event, t: nat)
    requires Inv(s) && IsServing(s.k, t) && IsServing(Next(s, e).k, t)
    ensures Next(s, e).k.tunnels[t] == s.k.tunnels[t]
    ensures Reachable(Next(s, e), t) <==> Reachable(s, t) && !Loses(s, e, t)
  {
    TunnelsGoOn(s, e);
    BlockStays(s, e, t);
  }

  lemma BecomesReachable(s: State, e: Event, t: nat)
    requires Inv(s) && IsServing(Next(s, e).k, t) && !IsServing(s.k, t)
    ensures IsStarting(s.k, t) && e.Publish? && e.tunnel == t
    ensures Reachable(Next(s, e), t) <==> Next(s, e).k.tunnels[t].phase.written
  {
    assert t in s.k.tunnels;
    var alias := s.k.tunnels[t].alias;
    assert TunnelHolds(s.k, s.clock, t) && LeavesFirst(s.k, s.d, t);
    assert alias in s.d.blocks ==> IsOwned(s, alias, s.d.blocks[alias]);
  }

  /** A tunnel yet to come, or to publish, was not serving before. */
  ghost predicate Early(s: State, t: nat) {
    t >= s.clock || IsStarting(s.k, t)
  }

  lemma EarlyBefore(s: State, e: Event, t: nat)
    requires TunnelsHold(s.k, s.clock) && Early(Next(s, e), t)
    ensures Early(s, t) && !Loses(s, e, t)
  {
    TunnelsGoOn(s, e);
    assert t in s.k.tunnels ==> TunnelHolds(s.k, s.clock, t);
  }

  lemma {:induction false} NothingLostEarly(blocks: map<string, Block>, es: seq<Event>, t: nat)
    requires Early(Run(Init(blocks), es), t)
    ensures !Lost(blocks, es, t)
  {
    if es != [] {
      var before := es[..|es| - 1];
      RunsKeep(blocks, before);
      EarlyBefore(Run(Init(blocks), before), es[|es| - 1], t);
      NothingLostEarly(blocks, before, t);
      LostSoFar(blocks, es, t);
    }
  }

  /**
   In every run, a serving tunnel has its own block exactly if its publication could
   write it, and since then no prune, and nothing late of an earlier tunnel, took it.
   */
  lemma {:induction false} ReachableUnlessTaken(blocks: map<string, Block>, es: seq<Event>, t: nat)
    requires IsServing(Run(Init(blocks), es).k, t)
    ensures var s := Run(Init(blocks), es);
            Reachable(s, t) <==> s.k.tunnels[t].phase.written && !Lost(blocks, es, t)
  {
    if es != [] {
      var before := es[..|es| - 1];
      var s, e := Run(Init(blocks), before), es[|es| - 1];
      RunsKeep(blocks, before);
      LostSoFar(blocks, es, t);
      if IsServing(s.k, t) {
        ReachableUnlessTaken(blocks, before, t);
        StaysReachable(s, e, t);
      } else {
        BecomesReachable(s, e, t);
        NothingLostEarly(blocks, before, t);
      }
    }
  }

  /** A prune that takes it found the lock free before the tunnel took that. */
  lemma LostToAnEarlierCheck(blocks: map<string, Block>, es: seq<Event>, k: nat, t: nat)
    requires k < |es| && LosesAt(blocks, es, k, t) && es[k].Unlink?
    ensures var keys := Run(Init(blocks), es[..k]).k;
            IsDoomed(keys, es[k].prober) && keys.probers[es[k].prober].since < t
  {
    RunsKeep(blocks, es[..k]);
    assert VerdictStands(Run(Init(blocks), es[..k]).k, es[k].prober, t);
  }

  /** Anything else that does is of an earlier tunnel, which did not wait for it. */
  lemma LostToAnEarlierTunnel(blocks: map<string, Block>, es: seq<Event>, k: nat, t: nat)
    requires k < |es| && LosesAt(blocks, es, k, t) && !es[k].Unlink?
    ensures (es[k].LateUnlink? || es[k].LateWrite?) && es[k].tunnel < t
    ensures es[k].tunnel in Run(Init(blocks), es[..k]).d.left
  {
    RunsKeep(blocks, es[..k]);
    var s := Run(Init(blocks), es[..k]);
    assert IsLate(s, es[k].tunnel, s.k.tunnels[t].alias);
  }

  /** The check and the removal as one step: no tunnel takes a lock in between. */
  ghost predicate Uninterrupted(k: Keys, e: Event) {
    e.Acquire? ==> forall p <- k.probers :: k.probers[p].Doomed? ==> k.probers[p].name != e.alias
  }

  ghost predicate AllUninterrupted(blocks: map<string, Block>, es: seq<Event>) {
    forall k :: 0 <= k < |es| ==> UninterruptedAt(blocks, es, k)
  }

  ghost predicate UninterruptedAt(blocks: map<string, Block>, es: seq<Event>, k: nat)
    requires k < |es|
  {
    Uninterrupted(Run(Init(blocks), es[..k]).k, es[k])
  }

  ghost predicate NobodyIsDoomed(k: Keys) {
    forall p <- k.probers, t <- k.tunnels :: k.probers[p].Doomed? ==> k.probers[p].name != k.tunnels[t].alias
  }

  lemma ProbersDoomNobody(k: Keys, e: Event, now: nat)
    requires Locking(k, now) && NobodyIsDoomed(k)
    ensures NobodyIsDoomed(ProbersNext(k, e, now))
  {
    forall p <- ProbersNext(k, e, now).probers, t <- k.tunnels
      ensures ProbersNext(k, e, now).probers[p].Doomed? ==> ProbersNext(k, e, now).probers[p].name != k.tunnels[t].alias
    {
      assert TunnelHolds(k, now, t) && LockIsHeld(k, k.tunnels[t].alias);
    }
  }

  lemma TunnelsAreNotDoomed(k: Keys, e: Event, now: nat)
    requires NobodyIsDoomed(k) && Uninterrupted(k, e)
    ensures NobodyIsDoomed(TunnelsNext(k, e, now))
  {
  }

  lemma {:induction false} NobodyDoomed(blocks: map<string, Block>, es: seq<Event>)
    requires AllUninterrupted(blocks, es)
    ensures NobodyIsDoomed(Run(Init(blocks), es).k)
  {
    if es != [] {
      var before := es[..|es| - 1];
      var s, e := Run(Init(blocks), before), es[|es| - 1];
      UninterruptedSoFar(blocks, es, |before|);
      NobodyDoomed(blocks, before);
      RunsKeep(blocks, before);
      assert UninterruptedAt(blocks, es, |before|);
      ProbersDoomNobody(s.k, e, s.clock);
      TunnelsAreNotDoomed(s.k, e, s.clock);
    }
  }

  lemma UninterruptedSoFar(blocks: map<string, Block>, es: seq<Event>, n: nat)
    requires AllUninterrupted(blocks, es) && n <= |es|
    ensures AllUninterrupted(blocks, es[..n])
  {
    forall k | 0 <= k < n
      ensures UninterruptedAt(blocks, es[..n], k)
    {
      assert es[..n][..k] == es[..k] && UninterruptedAt(blocks, es, k);
    }
  }

  /** With each check and its removal in one step, no prune takes the block of a tunnel that serves. */
  lemma NoLiveBlockIsPruned(blocks: map<string, Block>, es: seq<Event>, k: nat, t: nat)
    requires AllUninterrupted(blocks, es) && k < |es| && es[k].Unlink?
    ensures !LosesAt(blocks, es, k, t)
  {
    UninterruptedSoFar(blocks, es, k);
    NobodyDoomed(blocks, es[..k]);
  }

  /** So, with nothing late, a serving tunnel has its block from its publication on exactly if that could write it. */
  lemma WrittenBlocksStay(blocks: map<string, Block>, es: seq<Event>, t: nat)
    requires AllUninterrupted(blocks, es)
    requires forall k :: 0 <= k < |es| ==> !es[k].LateUnlink? && !es[k].LateWrite?
    requires IsServing(Run(Init(blocks), es).k, t)
    ensures var s := Run(Init(blocks), es); Reachable(s, t) <==> s.k.tunnels[t].phase.written
  {
    ReachableUnlessTaken(blocks, es, t);
    forall k | 0 <= k < |es|
      ensures !LosesAt(blocks, es, k, t)
    {
      if es[k].Unlink? {
        NoLiveBlockIsPruned(blocks, es, k, t);
      }
    }
  }

  // Runs in which a serving tunnel loses its block

  /** The prune's check and removal are two steps in the code, and a tunnel that starts in between loses its block. */
  lemma APruneMayTakeALiveBlock()
    ensures var s := Run(Init(map[]),
              [CreateLockFile("a"), Probe(0, "a"), Free(0), Acquire("a"), Publish(3, 1, true), Unlink(0)]);
            IsServing(s.k, 3) && s.k.tunnels[3].alias == "a" && "a" !in s.d.blocks
  {
    var es := [CreateLockFile("a"), Probe(0, "a"), Free(0), Acquire("a"), Publish(3, 1, true), Unlink(0)];
    AskedTooSoon();
    TakenFromTheNext(Next(Next(Next(Init(map[]), es[0]), es[1]), es[2]), Unlink(0), 1);
    RunSteps(Init(map[]), es);
  }

  lemma AskedTooSoon()
    ensures var s := Next(Next(Next(Init(map[]), CreateLockFile("a")), Probe(0, "a")), Free(0));
            s.clock == 3 && s.k == Keys(map[], {"a"}, map[], map[0 := Doomed("a", 2)]) && ValidAlias("a")
  {
    assert ValidAlias("a");
    var none := Keys(map[], {}, map[], map[]);
    assert KeysNext(none, CreateLockFile("a"), 0) == Keys(map[], {"a"}, map[], map[]);
    assert KeysNext(Keys(map[], {"a"}, map[], map[]), Probe(0, "a"), 1)
        == Keys(map["a" := ByProber(0)], {"a"}, map[], map[0 := Probing("a")]);
    assert map["a" := ByProber(0)] - {"a"} == map[];
    assert map[0 := Probing("a")][0 := Doomed("a", 2)] == map[0 := Doomed("a", 2)];
  }

  /** And so does the next tunnel of an alias whose last one did not wait for its withdrawal. */
  lemma ALateWithdrawalMayTakeALiveBlock()
    ensures var s := Run(Init(map[]),
              [Acquire("a"), Withdraw(0, TimedOut), Release(0), Acquire("a"), Publish(3, 1, true), LateUnlink(0)]);
            IsServing(s.k, 3) && s.k.tunnels[3].alias == "a" && "a" !in s.d.blocks
  {
    var es := [Acquire("a"), Withdraw(0, TimedOut), Release(0), Acquire("a"), Publish(3, 1, true), LateUnlink(0)];
    WithdrawnTooLate();
    TakenFromTheNext(Next(Next(Next(Init(map[]), es[0]), es[1]), es[2]), LateUnlink(0), 1);
    RunSteps(Init(map[]), es);
  }

  lemma WithdrawnTooLate()
    ensures var s := Next(Next(Next(Init(map[]), Acquire("a")), Withdraw(0, TimedOut)), Release(0));
            && s.clock == 3 && s.k == Keys(map[], {"a"}, map[], map[])
            && s.d.lateUnlinks == map[0 := "a"] && ValidAlias("a")
  {
    assert ValidAlias("a");
    var locks, files := map["a" := ByTunnel(0)], {"a"};
    assert KeysNext(Keys(map[], {}, map[], map[]), Acquire("a"), 0)
        == Keys(locks, files, map[0 := Tunnel("a", Starting)], map[]);
    assert KeysNext(Keys(locks, files, map[0 := Tunnel("a", Starting)], map[]), Withdraw(0, TimedOut), 1)
        == Keys(locks, files, map[0 := Tunnel("a", Leaving)], map[]);
    assert locks - {"a"} == map[] && map[0 := Tunnel("a", Leaving)] - {0} == map[];
  }

  /** A tunnel that starts and serves while what takes its block is under way. */
  lemma TakenFromTheNext(s: State, e: Event, port: nat)
    requires ValidAlias("a") && "a" !in s.k.locks
    requires (e.Unlink? && IsDoomed(s.k, e.prober) && s.k.probers[e.prober].name == "a")
          || (e.LateUnlink? && e.tunnel in s.d.lateUnlinks && s.d.lateUnlinks[e.tunnel] == "a")
    ensures var end := Next(Next(Next(s, Acquire("a")), Publish(s.clock, port, true)), e);
            IsServing(end.k, s.clock) && end.k.tunnels[s.clock].alias == "a" && "a" !in end.d.blocks
  {
    var started := Next(s, Acquire("a"));
    assert started.k.tunnels == s.k.tunnels[s.clock := Tunnel("a", Starting)] && started.d == s.d;
    var serving := Next(started, Publish(s.clock, port, true));
    assert serving.k.tunnels == started.k.tunnels[s.clock := Tunnel("a", Serving(port, true))];
    assert serving.k.probers == s.k.probers && serving.d.lateUnlinks == s.d.lateUnlinks;
  }

  lemma RunSteps(s: State, es: seq<Event>)
    requires |es| == 6
    ensures Run(s, es) == Next(Next(Next(Next(Next(Next(s, es[0]), es[1]), es[2]), es[3]), es[4]), es[5])
  {
    assert es[..1][..0] == [] && es[..2][..1] == es[..1] && es[..3][..2] == es[..2];
    assert es[..4][..3] == es[..3] && es[..5][..4] == es[..4];
    assert Run(s, es[..1]) == Next(s, es[0]);
    assert Run(s, es[..2]) == Next(Run(s, es[..1]), es[1]);
    assert Run(s, es[..3]) == Next(Run(s, es[..2]), es[2]);
    assert Run(s, es[..4]) == Next(Run(s, es[..3]), es[3]);
    assert Run(s, es[..5]) == Next(Run(s, es[..4]), es[4]);
  }
}
