/**
 The machine's locks and files as the code updates them, and `prune_stale_active_configs`
 as it goes through the blocks while other processes take their steps.
 */
module Pruning {
  import opened Prelude
  import opened Tunnels

  class Machine {
    // One per step, for telling tunnels apart.
    var clock: nat
    var locks: map<string, Holder>
    var lockFiles: set<string>
    var tunnels: map<nat, Tunnel>
    var probers: map<nat, Prober>
    var blocks: map<string, Block>
    var lateWrites: map<nat, Late>
    var lateUnlinks: map<nat, string>
    var left: set<nat>

    ghost function View(): State
      reads this
    {
      State(clock, Keys(locks, lockFiles, tunnels, probers), Disk(blocks, lateWrites, lateUnlinks, left))
    }

    constructor (blocks: map<string, Block>)
      ensures View() == Init(blocks)
    {
      clock, locks, lockFiles, tunnels, probers := 0, map[], {}, map[], map[];
      this.blocks := map name | name in blocks :: Block(None, blocks[name].port);
      lateWrites, lateUnlinks, left := map[], map[], {};
    }

    /** `alias_lock`, to its `yield`: the new tunnel, or None for the ValueError or TunnelError. */
    method AliasLock(alias: string) returns (tunnel: Option<nat>)
      modifies this
      ensures View() == Next(old(View()), Acquire(alias))
      ensures tunnel == if ValidAlias(alias) && alias !in old(locks) then Some(old(clock)) else None
    {
      clock := clock + 1;
      if !ValidAlias(alias) || alias in locks {
        return None;
      }
      var now := clock - 1;
      lockFiles := lockFiles + {alias};
      locks := locks[alias := ByTunnel(now)];
      tunnels := tunnels[now := Tunnel(alias, Starting)];
      return Some(now);
    }

    /** `alias_locked`, until the answer or with the lock in hand. */
    method TryLock(prober: nat, name: string) returns (live: bool)
      requires prober !in probers
      modifies this
      ensures View() == Next(old(View()), Probe(prober, name))
      ensures live <==> ValidAlias(name) && name in old(lockFiles) && name in old(locks)
    {
      live := false;
      if !ValidAlias(name) || name !in lockFiles {
        probers := probers[prober := Doomed(name, clock)];
      } else if name in locks {
        live := true;
      } else {
        locks := locks[name := ByProber(prober)];
        probers := probers[prober := Probing(name)];
      }
      clock := clock + 1;
    }

    method LetGo(prober: nat)
      requires prober in probers && probers[prober].Probing?
      modifies this
      ensures View() == Next(old(View()), Free(prober))
    {
      var name := probers[prober].name;
      locks := locks - {name};
      probers := probers[prober := Doomed(name, clock)];
      clock := clock + 1;
    }

    method Remove(prober: nat)
      requires prober in probers && probers[prober].Doomed?
      modifies this
      ensures View() == Next(old(View()), Unlink(prober))
    {
      blocks := blocks - {probers[prober].name};
      probers := probers - {prober};
      clock := clock + 1;
    }

    /**
     `publish_host`, after its prune; not `written` when that or the write fails, which
     only warns: the tunnel serves all the same.
     */
    method PublishHost(tunnel: nat, port: nat, written: bool)
      requires tunnel in tunnels && tunnels[tunnel].phase.Starting?
      modifies this
      ensures View() == Next(old(View()), Publish(tunnel, port, written))
    {
      var alias := tunnels[tunnel].alias;
      if written {
        blocks := blocks[alias := Block(Some(tunnel), port)];
      }
      tunnels := tunnels[tunnel := Tunnel(alias, Serving(port, written))];
      clock := clock + 1;
    }

    /** `withdraw_host`: a failing unlink only warns, and one that takes too long is left to its thread. */
    method WithdrawHost(tunnel: nat, how: Withdrawal)
      requires tunnel in tunnels && !tunnels[tunnel].phase.Leaving?
      modifies this
      ensures View() == Next(old(View()), Withdraw(tunnel, how))
    {
      var alias := tunnels[tunnel].alias;
      tunnels := tunnels[tunnel := Tunnel(alias, Leaving)];
      match how {
        case Done => blocks := blocks - {alias};
        case Refused => left := left + {tunnel};
        case TimedOut => lateUnlinks, left := lateUnlinks[tunnel := alias], left + {tunnel};
      }
      clock := clock + 1;
    }

    method EndTunnel(tunnel: nat)
      requires tunnel in tunnels
      modifies this`tunnels, this`locks
      ensures Keys(locks, lockFiles, tunnels, probers) == End(old(View()).k, tunnel)
    {
      locks := locks - {tunnels[tunnel].alias};
      tunnels := tunnels - {tunnel};
    }

    /** The step of a process that holds or asks for a lock, but for those above. */
    method HandleHolder(e: Event)
      requires e.CreateLockFile? || e.Release? || e.Kill? || e.Abandon?
      modifies this
      ensures View() == Next(old(View()), e)
    {
      match e {
        case CreateLockFile(alias) =>
          if ValidAlias(alias) {
            lockFiles := lockFiles + {alias};
          }
        case Release(t) =>
          if t in tunnels && (tunnels[t].phase.Starting? || tunnels[t].phase.Leaving?) {
            EndTunnel(t);
          }
        case Kill(t) =>
          lateWrites, lateUnlinks := lateWrites - {t}, lateUnlinks - {t};
          if t in tunnels {
            EndTunnel(t);
            left := left + {t};
          }
        case Abandon(p) =>
          if p in probers {
            if probers[p].Probing? {
              locks := locks - {probers[p].name};
            }
            probers := probers - {p};
          }
      }
      clock := clock + 1;
    }

    /** What happens to blocks besides. */
    method HandleBlock(e: Event)
      requires e.GiveUp? || e.LateWrite? || e.LateUnlink? || e.Fizzle? || e.Drop?
      modifies this
      ensures View() == Next(old(View()), e)
    {
      match e {
        case GiveUp(t, port) => GiveUpPublication(t, port);
        case LateWrite(t) => WriteLate(t);
        case LateUnlink(t) => UnlinkLate(t);
        case Fizzle(t) =>
          lateWrites, lateUnlinks := lateWrites - {t}, lateUnlinks - {t};
          clock := clock + 1;
        case Drop(name, port) => LeaveFile(name, port);
      }
    }

    /** A publication that takes too long is left to its thread. */
    method GiveUpPublication(tunnel: nat, port: nat)
      modifies this
      ensures View() == Next(old(View()), GiveUp(tunnel, port))
    {
      if tunnel in tunnels && tunnels[tunnel].phase.Starting? {
        var alias := tunnels[tunnel].alias;
        tunnels := tunnels[tunnel := Tunnel(alias, GivenUp)];
        lateWrites, left := lateWrites[tunnel := Late(alias, port)], left + {tunnel};
      }
      clock := clock + 1;
    }

    method WriteLate(tunnel: nat)
      modifies this
      ensures View() == Next(old(View()), LateWrite(tunnel))
    {
      if tunnel in lateWrites {
        blocks := blocks[lateWrites[tunnel].alias := Block(Some(tunnel), lateWrites[tunnel].port)];
        lateWrites := lateWrites - {tunnel};
      }
      clock := clock + 1;
    }

    method UnlinkLate(tunnel: nat)
      modifies this
      ensures View() == Next(old(View()), LateUnlink(tunnel))
    {
      if tunnel in lateUnlinks {
        blocks := blocks - {lateUnlinks[tunnel]};
        lateUnlinks := lateUnlinks - {tunnel};
      }
      clock := clock + 1;
    }

    method LeaveFile(name: string, port: nat)
      modifies this
      ensures View() == Next(old(View()), Drop(name, port))
    {
      if name !in blocks {
        blocks := blocks[name := Block(None, port)];
      }
      clock := clock + 1;
    }

    /** Any process's next step. */
    method Handle(e: Event)
      modifies this
      ensures View() == Next(old(View()), e)
    {
      match e {
        case Acquire(alias) => var _ := AliasLock(alias);
        case Publish(t, port, written) =>
          if t in tunnels && tunnels[t].phase.Starting? { PublishHost(t, port, written); } else { clock := clock + 1; }
        case Withdraw(t, how) =>
          if t in tunnels && !tunnels[t].phase.Leaving? { WithdrawHost(t, how); } else { clock := clock + 1; }
        case Probe(p, name) =>
          if p !in probers { var _ := TryLock(p, name); } else { clock := clock + 1; }
        case Free(p) =>
          if p in probers && probers[p].Probing? { LetGo(p); } else { clock := clock + 1; }
        case Unlink(p) =>
          if p in probers && probers[p].Doomed? { Remove(p); } else { clock := clock + 1; }
        case CreateLockFile(_) => HandleHolder(e);
        case Release(_) => HandleHolder(e);
        case Kill(_) => HandleHolder(e);
        case Abandon(_) => HandleHolder(e);
        case _ => HandleBlock(e);
      }
    }

    /** The others' next steps. */
    method HandleAll(es: seq<Event>)
      modifies this
      ensures View() == Run(old(View()), es)
    {
      ghost var begin := View();
      for i := 0 to |es|
        invariant View() == Run(begin, es[..i])
      {
        Handle(es[i]);
        assert es[..i + 1][..i] == es[..i];
      }
      assert es[..|es|] == es;
    }

    /** One turn of the loop in `prune_stale_active_configs`. */
    method Visit(prober: nat, name: string, turn: Turn) returns (removed: bool)
      requires Inv(View()) && prober !in probers && Apart(turn, prober)
      modifies this
      ensures View() == Run(old(View()), VisitEvents(old(View()), prober, name, turn))
      ensures removed <==> FoundFree(old(View()), name, turn)
      ensures Inv(View()) && prober !in probers
    {
      VisitRun(View(), prober, name, turn);
      VisitBegins(View(), prober, name, turn);
      HandleAll(turn.before);
      var live := TryLock(prober, name);
      if !live {
        VisitEnds(View(), prober, turn);
        if probers[prober].Probing? {
          HandleAll(turn.held);
          LetGo(prober);
        }
        HandleAll(turn.doomed);
        Remove(prober);
      }
      removed := !live;
    }

    /**
     `prune_stale_active_configs`, of the blocks listed at its start: those it removed,
     and what it and the others did.
     */
    method PruneStale(prober: nat, listing: seq<string>, turns: seq<Turn>) returns (removed: seq<string>)
      requires Inv(View()) && prober !in probers
      requires |turns| == |listing| && AllApart(turns, prober)
      modifies this
      ensures View() == Pruned(old(View()), prober, listing, turns)
      ensures removed == Removed(old(View()), prober, listing, turns)
      ensures prober !in probers
    {
      removed := [];
      ghost var begin := View();
      assert listing[..0] == [];
      for i := 0 to |listing|
        invariant View() == Pruned(begin, prober, listing[..i], turns[..i])
        invariant removed == Removed(begin, prober, listing[..i], turns[..i])
        invariant Inv(View()) && prober !in probers
      {
        assert listing[..i + 1][..i] == listing[..i] && turns[..i + 1][..i] == turns[..i];
        var gone := Visit(prober, listing[i], turns[i]);
        if gone {
          removed := removed + [listing[i]];
        }
      }
      assert listing[..|listing|] == listing && turns[..|listing|] == turns;
    }
  }

  // What a prune does

  /** What other processes do before a visit, while the prober has the lock, and before it unlinks. */
  datatype Turn = Turn(before: seq<Event>, held: seq<Event>, doomed: seq<Event>)

  predicate Concerns(e: Event, prober: nat) {
    (e.Probe? || e.Free? || e.Unlink? || e.Abandon?) && e.prober == prober
  }

  ghost predicate Others(es: seq<Event>, prober: nat) {
    forall i :: 0 <= i < |es| ==> !Concerns(es[i], prober)
  }

  ghost predicate Apart(turn: Turn, prober: nat) {
    Others(turn.before, prober) && Others(turn.held, prober) && Others(turn.doomed, prober)
  }

  function VisitEvents(s: State, prober: nat, name: string, turn: Turn): seq<Event> {
    turn.before + [Probe(prober, name)]
    + RestOfVisit(Next(Run(s, turn.before), Probe(prober, name)), prober, turn)
  }

  /** At the visit, nobody has the lock on the name, if it is an alias at all. */
  predicate FoundFree(s: State, name: string, turn: Turn) {
    !ValidAlias(name) || name !in Run(s, turn.before).k.locks
  }

  function Pruned(s: State, prober: nat, listing: seq<string>, turns: seq<Turn>): State
    requires |turns| == |listing|
  {
    if listing == [] then s
    else
      var last := |listing| - 1;
      var before := Pruned(s, prober, listing[..last], turns[..last]);
      Run(before, VisitEvents(before, prober, listing[last], turns[last]))
  }

  function Removed(s: State, prober: nat, listing: seq<string>, turns: seq<Turn>): seq<string>
    requires |turns| == |listing|
  {
    if listing == [] then []
    else
      var last := |listing| - 1;
      Removed(s, prober, listing[..last], turns[..last]) +
      (if FoundFree(Pruned(s, prober, listing[..last], turns[..last]), listing[last], turns[last])
       then [listing[last]] else [])
  }

  predicate Rising(at: seq<nat>) {
    forall k, l :: 0 <= k < l < |at| ==> at[k] < at[l]
  }

  /** The names are those at the places `at` of the listing. */
  predicate Picks(at: seq<nat>, names: seq<string>, listing: seq<string>) {
    && |at| == |names|
    && forall k :: 0 <= k < |at| ==> at[k] < |listing| && names[k] == listing[at[k]]
  }

  lemma PicksTheLast(at: seq<nat>, names: seq<string>, listing: seq<string>)
    requires listing != [] && Rising(at) && Picks(at, names, listing[..|listing| - 1])
    ensures var last := |listing| - 1;
      && Picks(at, names, listing) && last !in at
      && Rising(at + [last]) && Picks(at + [last], names + [listing[last]], listing)
  {
  }

  /**
   The names returned are those listed that were found free when their turn came, in the
   order of the listing: `at` are their places.
   */
  lemma {:induction false} TheRemovedAreReturned(s: State, prober: nat, listing: seq<string>, turns: seq<Turn>)
    returns (at: seq<nat>)
    requires |turns| == |listing|
    ensures Rising(at) && Picks(at, Removed(s, prober, listing, turns), listing)
    ensures forall i :: 0 <= i < |listing| ==> (i in at <==> FoundFreeAt(s, prober, listing, turns, i))
  {
    at := [];
    if listing != [] {
      hide Rising, Picks, FoundFreeAt, Removed;
      var last := |listing| - 1;
      at := TheRemovedAreReturned(s, prober, listing[..last], turns[..last]);
      RemovedNext(s, prober, listing, turns);
      PicksTheLast(at, Removed(s, prober, listing[..last], turns[..last]), listing);
      var before := at;
      if FoundFreeAt(s, prober, listing, turns, last) {
        at := before + [last];
      }
      PlacesNext(s, prober, listing, turns, before);
    } else {
      NoneRemoved(s, prober, listing, turns);
    }
  }

  lemma NoneRemoved(s: State, prober: nat, listing: seq<string>, turns: seq<Turn>)
    requires |turns| == |listing| == 0
    ensures Rising([]) && Picks([], Removed(s, prober, listing, turns), listing)
  {
  }

  lemma RemovedNext(s: State, prober: nat, listing: seq<string>, turns: seq<Turn>)
    requires |turns| == |listing| && listing != []
    ensures var last := |listing| - 1;
      var before := Removed(s, prober, listing[..last], turns[..last]);
      Removed(s, prober, listing, turns)
        == if FoundFreeAt(s, prober, listing, turns, last) then before + [listing[last]] else before
  {
    hide FoundFree, Pruned;
  }

  lemma PlacesNext(s: State, prober: nat, listing: seq<string>, turns: seq<Turn>, before: seq<nat>)
    requires |turns| == |listing| && listing != [] && |listing| - 1 !in before
    requires var last := |listing| - 1;
      forall i :: 0 <= i < last ==> (i in before <==> FoundFreeAt(s, prober, listing[..last], turns[..last], i))
    ensures var last := |listing| - 1;
      var at := if FoundFreeAt(s, prober, listing, turns, last) then before + [last] else before;
      forall i :: 0 <= i < |listing| ==> (i in at <==> FoundFreeAt(s, prober, listing, turns, i))
  {
    hide FoundFreeAt;
    var last := |listing| - 1;
    forall i | 0 <= i < last
      ensures FoundFreeAt(s, prober, listing[..last], turns[..last], i) == FoundFreeAt(s, prober, listing, turns, i)
    {
      FoundFreeBefore(s, prober, listing, turns, last, i);
    }
  }

  /** A name is returned exactly if it is listed and, when its turn came, was no alias's or nobody had its lock. */
  lemma ReturnedExactlyIfFree(s: State, prober: nat, listing: seq<string>, turns: seq<Turn>, name: string)
    requires |turns| == |listing|
    ensures name in Removed(s, prober, listing, turns) <==>
      exists i :: 0 <= i < |listing| && listing[i] == name && FoundFreeAt(s, prober, listing, turns, i)
  {
    var at := TheRemovedAreReturned(s, prober, listing, turns);
    var removed := Removed(s, prober, listing, turns);
    if name in removed {
      var k :| 0 <= k < |removed| && removed[k] == name;
      assert at[k] in at && listing[at[k]] == name;
    }
    forall i | 0 <= i < |listing| && listing[i] == name && FoundFreeAt(s, prober, listing, turns, i)
      ensures name in removed
    {
      assert i in at;
      var k :| 0 <= k < |at| && at[k] == i;
      assert removed[k] == name;
    }
  }

  lemma {:induction false} RunThen(s: State, es: seq<Event>, more: seq<Event>)
    ensures Run(s, es + more) == Run(Run(s, es), more)
  {
    if more == [] {
      assert es + more == es;
    } else {
      RunThen(s, es, more[..|more| - 1]);
      assert (es + more)[..|es + more| - 1] == es + more[..|more| - 1];
    }
  }

  lemma RunOne(s: State, e: Event)
    ensures Run(s, [e]) == Next(s, e)
  {
    assert [e][..0] == [];
    assert Run(s, []) == s;
  }

  lemma {:induction false} RunKeeps(s: State, es: seq<Event>)
    requires Inv(s)
    ensures Inv(Run(s, es))
  {
    if es != [] {
      RunKeeps(s, es[..|es| - 1]);
      NextKeeps(Run(s, es[..|es| - 1]), es[|es| - 1]);
    }
  }

  ghost predicate SameProber(s: State, t: State, prober: nat) {
    && (prober in s.k.probers <==> prober in t.k.probers)
    && (prober in s.k.probers ==> s.k.probers[prober] == t.k.probers[prober])
  }

  lemma AnotherLeavesIt(s: State, e: Event, prober: nat)
    requires !Concerns(e, prober)
    ensures SameProber(s, Next(s, e), prober)
  {
  }

  lemma {:induction false} OthersLeaveIt(s: State, es: seq<Event>, prober: nat)
    requires Others(es, prober)
    ensures SameProber(s, Run(s, es), prober)
  {
    if es != [] {
      OthersLeaveIt(s, es[..|es| - 1], prober);
      AnotherLeavesIt(Run(s, es[..|es| - 1]), es[|es| - 1], prober);
    }
  }

  /** A visit up to its probe. */
  lemma VisitBegins(s: State, prober: nat, name: string, turn: Turn)
    requires Inv(s) && prober !in s.k.probers && Apart(turn, prober)
    ensures var came := Run(s, turn.before);
            var probed := Next(came, Probe(prober, name));
            && Inv(came) && Inv(probed) && prober !in came.k.probers
            && probed == Run(s, turn.before + [Probe(prober, name)])
            && (prober in probed.k.probers <==> FoundFree(s, name, turn))
            && (FoundFree(s, name, turn) ==> probed.k.probers[prober].name == name)
            && (name in came.k.locks ==> name in came.k.lockFiles)
  {
    var came := Run(s, turn.before);
    OthersLeaveIt(s, turn.before, prober);
    RunKeeps(s, turn.before);
    NextKeeps(came, Probe(prober, name));
    if name in came.k.locks {
      assert LockIsHeld(came.k, name);
    }
    RunThen(s, turn.before, [Probe(prober, name)]);
    RunOne(came, Probe(prober, name));
  }

  /** What is left of it then. */
  function RestOfVisit(probed: State, prober: nat, turn: Turn): seq<Event> {
    if prober !in probed.k.probers then []
    else if probed.k.probers[prober].Probing? then turn.held + [Free(prober)] + turn.doomed + [Unlink(prober)]
    else turn.doomed + [Unlink(prober)]
  }

  lemma VisitEnds(probed: State, prober: nat, turn: Turn)
    requires Apart(turn, prober) && prober in probed.k.probers
    ensures var name := probed.k.probers[prober].name;
            var freed := if probed.k.probers[prober].Probing? then Next(Run(probed, turn.held), Free(prober)) else probed;
            var doomed := Run(freed, turn.doomed);
            && (probed.k.probers[prober].Probing? ==> SameProber(probed, Run(probed, turn.held), prober))
            && prober in doomed.k.probers && doomed.k.probers[prober].Doomed? && doomed.k.probers[prober].name == name
            && Run(probed, RestOfVisit(probed, prober, turn)) == Next(doomed, Unlink(prober))
  {
    if probed.k.probers[prober].Probing? {
      Condemned(probed, prober, turn);
    } else {
      Removal(probed, prober, turn.doomed);
    }
  }

  lemma Unlinked(doomed: State, prober: nat)
    requires prober in doomed.k.probers && doomed.k.probers[prober].Doomed?
    ensures var end := Next(doomed, Unlink(prober));
            doomed.k.probers[prober].name !in end.d.blocks && prober !in end.k.probers
  {
  }

  /** The states a visit goes through, to its end. */
  lemma VisitRun(s: State, prober: nat, name: string, turn: Turn)
    requires Inv(s) && prober !in s.k.probers && Apart(turn, prober)
    ensures var probed := Next(Run(s, turn.before), Probe(prober, name));
            var end := Run(s, VisitEvents(s, prober, name, turn));
            && Inv(end) && prober !in end.k.probers
            && (FoundFree(s, name, turn) ==> name !in end.d.blocks)
            && end == Run(probed, RestOfVisit(probed, prober, turn))
  {
    var probed := Next(Run(s, turn.before), Probe(prober, name));
    var rest := RestOfVisit(probed, prober, turn);
    VisitBegins(s, prober, name, turn);
    RunKeeps(s, VisitEvents(s, prober, name, turn));
    RunThen(s, turn.before + [Probe(prober, name)], rest);
    if FoundFree(s, name, turn) {
      VisitEnds(probed, prober, turn);
      var freed := if probed.k.probers[prober].Probing? then Next(Run(probed, turn.held), Free(prober)) else probed;
      Unlinked(Run(freed, turn.doomed), prober);
    }
  }

  lemma Removal(s: State, prober: nat, doomed: seq<Event>)
    requires prober in s.k.probers && s.k.probers[prober].Doomed? && Others(doomed, prober)
    ensures var t := Run(s, doomed);
            && SameProber(s, t, prober)
            && Run(s, doomed + [Unlink(prober)]) == Next(t, Unlink(prober))
  {
    OthersLeaveIt(s, doomed, prober);
    RunThen(s, doomed, [Unlink(prober)]);
    RunOne(Run(s, doomed), Unlink(prober));
  }

  lemma Freed(held: State, prober: nat)
    requires prober in held.k.probers && held.k.probers[prober].Probing?
    ensures var freed := Next(held, Free(prober));
            prober in freed.k.probers && freed.k.probers[prober].Doomed? && freed.k.probers[prober].name == held.k.probers[prober].name
  {
  }

  lemma Condemned(s: State, prober: nat, turn: Turn)
    requires prober in s.k.probers && s.k.probers[prober].Probing? && Apart(turn, prober)
    ensures var held := Run(s, turn.held);
            var freed := Next(held, Free(prober));
            var t := Run(freed, turn.doomed);
            && SameProber(s, held, prober)
            && prober in t.k.probers && t.k.probers[prober].Doomed? && t.k.probers[prober].name == s.k.probers[prober].name
            && Run(s, turn.held + [Free(prober)] + turn.doomed + [Unlink(prober)]) == Next(t, Unlink(prober))
  {
    var held := Run(s, turn.held);
    OthersLeaveIt(s, turn.held, prober);
    Freed(held, prober);
    OthersLeaveIt(Next(held, Free(prober)), turn.doomed, prober);
    FourParts(s, turn.held, Free(prober), turn.doomed, Unlink(prober));
  }

  lemma FourParts(s: State, a: seq<Event>, x: Event, b: seq<Event>, y: Event)
    ensures Run(s, a + [x] + b + [y]) == Next(Run(Next(Run(s, a), x), b), y)
  {
    RunThen(s, a + [x] + b, [y]);
    RunThen(s, a + [x], b);
    RunThen(s, a, [x]);
    RunOne(Run(s, a), x);
    RunOne(Run(Next(Run(s, a), x), b), y);
  }

  /** The tunnel has ended, and nothing of it is still to write. */
  ghost predicate IsOver(s: State, t: nat) {
    t < s.clock && t !in s.k.tunnels && t !in s.d.lateWrites
  }

  /** The block under `name` is not one of tunnel `t`, nor will it be. */
  ghost predicate Gone(s: State, name: string, t: nat) {
    && IsOver(s, t)
    && !(name in s.d.blocks && s.d.blocks[name].owner == Some(t))
  }

  lemma IsEnded(s: State, e: Event, t: nat)
    requires IsOver(s, t)
    ensures IsOver(Next(s, e), t)
  {
  }

  lemma IsGone(s: State, e: Event, name: string, t: nat)
    requires Gone(s, name, t)
    ensures Gone(Next(s, e), name, t)
  {
    IsEnded(s, e, t);
  }

  lemma {:induction false} StaysGone(s: State, es: seq<Event>, name: string, t: nat)
    requires Gone(s, name, t)
    ensures Gone(Run(s, es), name, t)
  {
    if es != [] {
      StaysGone(s, es[..|es| - 1], name, t);
      IsGone(Run(s, es[..|es| - 1]), es[|es| - 1], name, t);
    }
  }

  lemma {:induction false} StaysEnded(s: State, es: seq<Event>, t: nat)
    requires IsOver(s, t)
    ensures IsOver(Run(s, es), t)
  {
    if es != [] {
      StaysEnded(s, es[..|es| - 1], t);
      IsEnded(Run(s, es[..|es| - 1]), es[|es| - 1], t);
    }
  }

  lemma {:induction false} PruneKeeps(s: State, prober: nat, listing: seq<string>, turns: seq<Turn>, t: nat)
    requires Inv(s) && prober !in s.k.probers
    requires |turns| == |listing| && AllApart(turns, prober)
    requires IsOver(s, t)
    ensures var end := Pruned(s, prober, listing, turns);
            Inv(end) && prober !in end.k.probers && IsOver(end, t)
  {
    if listing != [] {
      var last := |listing| - 1;
      PruneKeeps(s, prober, listing[..last], turns[..last], t);
      var before := Pruned(s, prober, listing[..last], turns[..last]);
      VisitRun(before, prober, listing[last], turns[last]);
      StaysEnded(before, VisitEvents(before, prober, listing[last], turns[last]), t);
    }
  }

  ghost predicate AllApart(turns: seq<Turn>, prober: nat) {
    forall j :: 0 <= j < |turns| ==> Apart(turns[j], prober)
  }

  /** When the prune comes to the `i`th name, nobody has its lock. */
  predicate FoundFreeAt(s: State, prober: nat, listing: seq<string>, turns: seq<Turn>, i: nat)
    requires |turns| == |listing| && i < |listing|
  {
    FoundFree(Pruned(s, prober, listing[..i], turns[..i]), listing[i], turns[i])
  }

  lemma FoundFreeBefore(s: State, prober: nat, listing: seq<string>, turns: seq<Turn>, n: nat, i: nat)
    requires |turns| == |listing| && i < n <= |listing|
    ensures FoundFreeAt(s, prober, listing[..n], turns[..n], i) == FoundFreeAt(s, prober, listing, turns, i)
  {
    assert listing[..n][..i] == listing[..i] && turns[..n][..i] == turns[..i];
  }

  /**
   A block that was stale before the prune, and listed, is still there after it only
   if someone had its alias's lock when the prune came to it: a tunnel that was
   starting, or another process that was asking.
   */
  lemma {:induction false} PruneRemovesTheStale(
    s: State, prober: nat, listing: seq<string>, turns: seq<Turn>, i: nat, t: nat)
    requires Inv(s) && prober !in s.k.probers && IsOver(s, t)
    requires |turns| == |listing| && AllApart(turns, prober)
    requires i < |listing| && FoundFreeAt(s, prober, listing, turns, i)
    ensures Gone(Pruned(s, prober, listing, turns), listing[i], t)
    decreases |listing|
  {
    var last := |listing| - 1;
    var before := Pruned(s, prober, listing[..last], turns[..last]);
    PruneKeeps(s, prober, listing[..last], turns[..last], t);
    if i == last {
      VisitTakesIt(before, prober, listing[last], turns[last], t);
    } else {
      FoundFreeBefore(s, prober, listing, turns, last, i);
      PruneRemovesTheStale(s, prober, listing[..last], turns[..last], i, t);
      StaysGone(before, VisitEvents(before, prober, listing[last], turns[last]), listing[i], t);
    }
  }

  lemma VisitTakesIt(s: State, prober: nat, name: string, turn: Turn, t: nat)
    requires Inv(s) && prober !in s.k.probers && Apart(turn, prober) && IsOver(s, t)
    requires FoundFree(s, name, turn)
    ensures Gone(Run(s, VisitEvents(s, prober, name, turn)), name, t)
  {
    VisitRun(s, prober, name, turn);
    StaysEnded(s, VisitEvents(s, prober, name, turn), t);
  }

  // Blocks of nobody known: left by tunnels from before, or by somebody else

  predicate Unowned(s: State, name: string) {
    name in s.d.blocks && s.d.blocks[name].owner.None?
  }

  predicate LeavesNone(es: seq<Event>, name: string) {
    forall i :: 0 <= i < |es| ==> !(es[i].Drop? && es[i].name == name)
  }

  /** Nobody leaves another file under the name meanwhile. */
  predicate NoneLeft(turn: Turn, name: string) {
    LeavesNone(turn.before, name) && LeavesNone(turn.held, name) && LeavesNone(turn.doomed, name)
  }

  lemma {:induction false} StaysOwned(s: State, es: seq<Event>, name: string)
    requires !Unowned(s, name) && LeavesNone(es, name)
    ensures !Unowned(Run(s, es), name)
  {
    if es != [] {
      hide Next;
      StaysOwned(s, es[..|es| - 1], name);
      OwnedNext(Run(s, es[..|es| - 1]), es[|es| - 1], name);
    }
  }

  lemma OwnedNext(s: State, e: Event, name: string)
    requires !Unowned(s, name) && !(e.Drop? && e.name == name)
    ensures !Unowned(Next(s, e), name)
  {
  }

  lemma VisitLeavesNone(s: State, prober: nat, name: string, turn: Turn, other: string)
    requires NoneLeft(turn, other)
    ensures LeavesNone(VisitEvents(s, prober, name, turn), other)
  {
  }

  /**
   And so are the blocks of earlier tunnels, from before anything that is known here, and
   files that somebody else left: one that is listed, and found free, is gone for good,
   unless somebody leaves another afterwards.
   */
  lemma {:induction false} PruneRemovesTheUnowned(
    s: State, prober: nat, listing: seq<string>, turns: seq<Turn>, i: nat)
    requires Inv(s) && prober !in s.k.probers
    requires |turns| == |listing| && AllApart(turns, prober)
    requires i < |listing| && FoundFreeAt(s, prober, listing, turns, i)
    requires forall j :: i < j < |turns| ==> NoneLeft(turns[j], listing[i])
    ensures !Unowned(Pruned(s, prober, listing, turns), listing[i])
    decreases |listing|
  {
    hide Inv, Unowned, VisitEvents, FoundFree, NoneLeft, LeavesNone, Run;
    var last := |listing| - 1;
    var before := Pruned(s, prober, listing[..last], turns[..last]);
    PruneKeepsAll(s, prober, listing[..last], turns[..last]);
    if i == last {
      VisitTakesAny(before, prober, listing[last], turns[last]);
    } else {
      FoundFreeBefore(s, prober, listing, turns, last, i);
      PruneRemovesTheUnowned(s, prober, listing[..last], turns[..last], i);
      VisitLeavesNone(before, prober, listing[last], turns[last], listing[i]);
      StaysOwned(before, VisitEvents(before, prober, listing[last], turns[last]), listing[i]);
    }
  }

  lemma VisitTakesAny(s: State, prober: nat, name: string, turn: Turn)
    requires Inv(s) && prober !in s.k.probers && Apart(turn, prober) && FoundFree(s, name, turn)
    ensures !Unowned(Run(s, VisitEvents(s, prober, name, turn)), name)
  {
    VisitRun(s, prober, name, turn);
  }

  lemma {:induction false} PruneKeepsAll(s: State, prober: nat, listing: seq<string>, turns: seq<Turn>)
    requires Inv(s) && prober !in s.k.probers
    requires |turns| == |listing| && AllApart(turns, prober)
    ensures var end := Pruned(s, prober, listing, turns); Inv(end) && prober !in end.k.probers
  {
    if listing != [] {
      var last := |listing| - 1;
      PruneKeepsAll(s, prober, listing[..last], turns[..last]);
      VisitRun(Pruned(s, prober, listing[..last], turns[..last]), prober, listing[last], turns[last]);
    }
  }

  /** If nobody else does anything meanwhile, the prune removes the stale blocks listed and no others. */
  lemma {:induction false} AQuietPruneIsExact(s: State, prober: nat, listing: seq<string>, turns: seq<Turn>, name: string)
    requires Inv(s) && prober !in s.k.probers
    requires |turns| == |listing| && forall i :: 0 <= i < |turns| ==> turns[i] == Turn([], [], [])
    ensures var end := Pruned(s, prober, listing, turns);
            && end.k.locks == s.k.locks && prober !in end.k.probers && Inv(end)
            && (name in end.d.blocks <==> name in s.d.blocks && !(name in listing && (!ValidAlias(name) || name !in s.k.locks)))
            && (name in end.d.blocks ==> end.d.blocks[name] == s.d.blocks[name])
  {
    if listing != [] {
      var last := |listing| - 1;
      AQuietPruneIsExact(s, prober, listing[..last], turns[..last], name);
      var before := Pruned(s, prober, listing[..last], turns[..last]);
      assert listing == listing[..last] + [listing[last]];
      QuietVisit(before, prober, listing[last]);
    }
  }

  /** And then what it returns are exactly the listed blocks that are gone. */
  lemma {:induction false} AQuietPruneReturnsTheGone(
    s: State, prober: nat, listing: seq<string>, turns: seq<Turn>, name: string)
    requires Inv(s) && prober !in s.k.probers
    requires |turns| == |listing| && forall i :: 0 <= i < |turns| ==> turns[i] == Turn([], [], [])
    requires name in listing ==> name in s.d.blocks
    ensures name in Removed(s, prober, listing, turns) <==>
      name in listing && name !in Pruned(s, prober, listing, turns).d.blocks
  {
    AQuietPruneIsExact(s, prober, listing, turns, name);
    ReturnedExactlyIfFree(s, prober, listing, turns, name);
    forall i | 0 <= i < |listing|
      ensures FoundFreeAt(s, prober, listing, turns, i) <==> !ValidAlias(listing[i]) || listing[i] !in s.k.locks
    {
      AQuietPruneIsExact(s, prober, listing[..i], turns[..i], name);
      assert Run(Pruned(s, prober, listing[..i], turns[..i]), []) == Pruned(s, prober, listing[..i], turns[..i]);
    }
  }

  lemma QuietVisit(s: State, prober: nat, name: string)
    requires Inv(s) && prober !in s.k.probers
    ensures var end := Run(s, VisitEvents(s, prober, name, Turn([], [], [])));
            && end.k.locks == s.k.locks && prober !in end.k.probers && Inv(end)
            && end.d.blocks == if ValidAlias(name) && name in s.k.locks then s.d.blocks else s.d.blocks - {name}
  {
    var quiet := Turn([], [], []);
    var probed := Next(s, Probe(prober, name));
    assert Run(s, []) == s && Run(probed, []) == probed;
    VisitRun(s, prober, name, quiet);
    VisitBegins(s, prober, name, quiet);
    if FoundFree(s, name, quiet) {
      VisitEnds(probed, prober, quiet);
      QuietRemoval(s, prober, name, probed);
    }
  }

  lemma QuietRemoval(s: State, prober: nat, name: string, probed: State)
    requires prober !in s.k.probers && (!ValidAlias(name) || name !in s.k.locks)
    requires probed == Next(s, Probe(prober, name))
    ensures var freed := if probed.k.probers[prober].Probing? then Next(probed, Free(prober)) else probed;
            var end := Next(freed, Unlink(prober));
            end.k.locks == s.k.locks && end.d.blocks == s.d.blocks - {name}
  {
  }
}
