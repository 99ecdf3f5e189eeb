/**
 What is known of the tunnels on one machine, and of their blocks, from what has happened
 alone: who runs and how far it got, what may still come late, and whose block is the last.
 */
module TunnelHistory {
  import opened Prelude
  import opened Tunnels

  ghost function At(blocks: map<string, Block>, es: seq<Event>, k: nat): State
    requires k <= |es|
  {
    Run(Init(blocks), es[..k])
  }

  lemma AtNext(blocks: map<string, Block>, es: seq<Event>)
    requires es != []
    ensures var last := |es| - 1;
      && Run(Init(blocks), es) == Next(At(blocks, es, last), es[last])
      && At(blocks, es, |es|) == Run(Init(blocks), es)
      && At(blocks, es, last) == Run(Init(blocks), es[..last])
  {
    assert es[..|es|] == es;
  }

  lemma {:induction false} TheClockCounts(blocks: map<string, Block>, es: seq<Event>)
    ensures Run(Init(blocks), es).clock == |es|
  {
    if es != [] {
      TheClockCounts(blocks, es[..|es| - 1]);
    }
  }

  // A tunnel's life

  /** The event takes a lock that nobody has. */
  ghost predicate Starts(k: Keys, e: Event) {
    && e.Acquire? && ValidAlias(e.alias)
    && (forall t <- k.tunnels :: k.tunnels[t].alias != e.alias)
    && (forall p <- k.probers :: k.probers[p] != Probing(e.alias))
  }

  predicate IsOf(e: Event, t: nat) {
    OfItsBlock(e) && e.tunnel == t
  }

  /** The first of the tunnel's own steps on its block. */
  function FirstStep(history: seq<Event>, t: nat): (first: Option<Event>)
    ensures first.Some? ==> IsOf(first.value, t)
  {
    if history == [] then None
    else
      var before, e := FirstStep(history[..|history| - 1], t), history[|history| - 1];
      if before.None? && IsOf(e, t) then Some(e) else before
  }

  ghost predicate Withdrew(history: seq<Event>, t: nat) {
    exists k :: 0 <= k < |history| && history[k].Withdraw? && history[k].tunnel == t
  }

  /** How far it got. */
  ghost function PhaseBy(history: seq<Event>, t: nat): Phase {
    if Withdrew(history, t) then Leaving
    else
      match FirstStep(history, t)
      case Some(Publish(_, port, written)) => Serving(port, written)
      case Some(_) => GivenUp
      case None => Starting
  }

  /** It is killed, or lets go of its lock, before its publication or after its withdrawal. */
  ghost predicate EndsAt(es: seq<Event>, t: nat, k: nat) {
    && t < k < |es|
    && (|| es[k] == Kill(t)
        || (es[k] == Release(t) && (PhaseBy(es[t + 1..k], t).Starting? || PhaseBy(es[t + 1..k], t).Leaving?)))
  }

  lemma WithdrewNext(history: seq<Event>, t: nat, e: Event)
    ensures Withdrew(history + [e], t) <==> Withdrew(history, t) || (e.Withdraw? && e.tunnel == t)
  {
    var all := history + [e];
    if k :| 0 <= k < |history| && history[k].Withdraw? && history[k].tunnel == t {
      assert all[k] == history[k];
    }
    assert all[|history|] == e;
  }

  lemma FirstStepNext(history: seq<Event>, t: nat, e: Event)
    ensures FirstStep(history + [e], t) ==
      if FirstStep(history, t).None? && IsOf(e, t) then Some(e) else FirstStep(history, t)
  {
    assert (history + [e])[..|history|] == history;
  }

  lemma {:induction false} WithdrawsAfterItsFirst(history: seq<Event>, t: nat)
    ensures Withdrew(history, t) ==> FirstStep(history, t).Some?
    ensures FirstStep(history, t).Some? && FirstStep(history, t).value.Withdraw? ==> Withdrew(history, t)
  {
    if history != [] {
      var before, e := history[..|history| - 1], history[|history| - 1];
      assert history == before + [e];
      WithdrawsAfterItsFirst(before, t);
      WithdrewNext(before, t, e);
      FirstStepNext(before, t, e);
    }
  }

  /** How an event moves it on. */
  function Onward(phase: Phase, e: Event, t: nat): Phase {
    if !IsOf(e, t) then phase
    else
      match e
      case Publish(_, port, written) => if phase.Starting? then Serving(port, written) else phase
      case GiveUp(_, _) => if phase.Starting? then GivenUp else phase
      case _ => Leaving
  }

  lemma PhaseNext(history: seq<Event>, t: nat, e: Event)
    ensures PhaseBy(history + [e], t) == Onward(PhaseBy(history, t), e, t)
  {
    hide Withdrew, FirstStep;
    WithdrewNext(history, t, e);
    FirstStepNext(history, t, e);
    WithdrawsAfterItsFirst(history, t);
    WithdrawsAfterItsFirst(history + [e], t);
  }

  predicate Ends(phase: Phase, e: Event, t: nat) {
    e == Kill(t) || (e == Release(t) && (phase.Starting? || phase.Leaving?))
  }

  lemma TunnelNext(k: Keys, e: Event, now: nat, t: nat)
    requires t < now
    ensures var next := KeysNext(k, e, now).tunnels;
      && (t in next <==> t in k.tunnels && !Ends(k.tunnels[t].phase, e, t))
      && (t in next ==> next[t] == Tunnel(k.tunnels[t].alias, Onward(k.tunnels[t].phase, e, t)))
  {
  }

  lemma {:induction false} StartsOnce(blocks: map<string, Block>, es: seq<Event>, t: nat)
    requires |es| == t + 1
    ensures var s, k := Run(Init(blocks), es), At(blocks, es, t).k;
      && (t in s.k.tunnels <==> Starts(k, es[t]))
      && (t in s.k.tunnels ==> s.k.tunnels[t] == Tunnel(es[t].alias, Starting))
  {
    var s := At(blocks, es, t);
    AtNext(blocks, es);
    TheClockCounts(blocks, es[..t]);
    RunsKeep(blocks, es[..t]);
    assert t in s.k.tunnels ==> TunnelHolds(s.k, t, t);
    if es[t].Acquire? {
      LockIsFree(s.k, s.clock, es[t].alias);
    }
  }

  ghost predicate Runs(blocks: map<string, Block>, es: seq<Event>, t: nat)
    requires t < |es|
  {
    Starts(At(blocks, es, t).k, es[t]) && forall k :: t < k < |es| ==> !EndsAt(es, t, k)
  }

  lemma RunsNext(blocks: map<string, Block>, es: seq<Event>, t: nat)
    requires t + 1 < |es|
    ensures var last := |es| - 1;
      Runs(blocks, es, t) <==>
        Runs(blocks, es[..last], t) && !Ends(PhaseBy(es[t + 1..last], t), es[last], t)
  {
    hide PhaseBy;
    var last := |es| - 1;
    var before := es[..last];
    assert before[..t] == es[..t];
    forall k | t < k < last
      ensures EndsAt(es, t, k) == EndsAt(before, t, k)
    {
      assert before[t + 1..k] == es[t + 1..k];
    }
    assert EndsAt(es, t, last) == Ends(PhaseBy(es[t + 1..last], t), es[last], t);
  }

  /**
   In every run, the tunnel that took its lock with the `t`th event runs, and has the lock,
   unless it was killed, or has ended before its publication or after its withdrawal; and its own
   steps since tell how far it got.
   */
  lemma {:induction false} ATunnelsLife(blocks: map<string, Block>, es: seq<Event>, t: nat)
    requires t < |es|
    ensures var s := Run(Init(blocks), es);
      && (t in s.k.tunnels <==> Runs(blocks, es, t))
      && (t in s.k.tunnels ==> s.k.tunnels[t] == Tunnel(es[t].alias, PhaseBy(es[t + 1..], t)))
    decreases |es|
  {
    var last := |es| - 1;
    AtNext(blocks, es);
    if t == last {
      StartsOnce(blocks, es, t);
      assert es[t + 1..] == [] && PhaseBy([], t) == Starting;
    } else {
      hide PhaseBy, Onward, Ends, KeysNext, DiskNext, Runs;
      var before := es[..last];
      ATunnelsLife(blocks, before, t);
      TheClockCounts(blocks, before);
      RunsNext(blocks, es, t);
      var s := At(blocks, es, last);
      TunnelNext(s.k, es[last], s.clock, t);
      assert before[t + 1..] == es[t + 1..last];
      PhaseNext(es[t + 1..last], t, es[last]);
      assert es[t + 1..last] + [es[last]] == es[t + 1..];
    }
  }

  // Lock files

  ghost predicate Named(es: seq<Event>, alias: string) {
    exists k :: 0 <= k < |es| && (es[k] == CreateLockFile(alias) || es[k] == Acquire(alias))
  }

  lemma NamedNext(es: seq<Event>, e: Event, alias: string)
    ensures Named(es + [e], alias) <==> Named(es, alias) || e == CreateLockFile(alias) || e == Acquire(alias)
  {
    var all := es + [e];
    if k :| 0 <= k < |es| && (es[k] == CreateLockFile(alias) || es[k] == Acquire(alias)) {
      assert all[k] == es[k];
    }
    assert all[|es|] == e;
  }

  /** There is a lock file exactly for each alias that somebody began to lock: for nothing else, and for good. */
  lemma {:induction false} LockFilesStay(blocks: map<string, Block>, es: seq<Event>, alias: string)
    ensures alias in Run(Init(blocks), es).k.lockFiles <==> ValidAlias(alias) && Named(es, alias)
  {
    if es != [] {
      var before, e := es[..|es| - 1], es[|es| - 1];
      LockFilesStay(blocks, before, alias);
      assert es == before + [e];
      NamedNext(before, e, alias);
      RunsKeep(blocks, before);
      var s := Run(Init(blocks), before);
      if alias in s.k.locks {
        assert LockIsHeld(s.k, alias);
      }
    }
  }

  // What may still come of a tunnel

  ghost predicate GivesUp(s: State, e: Event, t: nat) {
    e.GiveUp? && e.tunnel == t && IsStarting(s.k, t)
  }

  ghost predicate WithdrawsSo(s: State, e: Event, t: nat, how: Withdrawal) {
    e == Withdraw(t, how) && MayWithdraw(s.k, t)
  }

  predicate SettlesWrite(e: Event, t: nat) {
    e in {LateWrite(t), Fizzle(t), Kill(t)}
  }

  predicate SettlesUnlink(e: Event, t: nat) {
    e in {LateUnlink(t), Fizzle(t), Kill(t)}
  }

  ghost predicate WritesLater(blocks: map<string, Block>, es: seq<Event>, t: nat, k: nat) {
    && k < |es| && GivesUp(At(blocks, es, k), es[k], t)
    && forall j :: k < j < |es| ==> !SettlesWrite(es[j], t)
  }

  ghost predicate UnlinksLater(blocks: map<string, Block>, es: seq<Event>, t: nat, k: nat) {
    && k < |es| && WithdrawsSo(At(blocks, es, k), es[k], t, TimedOut)
    && forall j :: k < j < |es| ==> !SettlesUnlink(es[j], t)
  }

  lemma WritesLaterNext(blocks: map<string, Block>, es: seq<Event>, t: nat)
    requires es != []
    ensures var last := |es| - 1;
      (exists k :: WritesLater(blocks, es, t, k)) <==>
        || GivesUp(At(blocks, es, last), es[last], t)
        || ((exists k :: WritesLater(blocks, es[..last], t, k)) && !SettlesWrite(es[last], t))
  {
    hide GivesUp, SettlesWrite;
    var last := |es| - 1;
    var before := es[..last];
    forall k: nat | k < last
      ensures WritesLater(blocks, es, t, k) <==> WritesLater(blocks, before, t, k) && !SettlesWrite(es[last], t)
    {
      assert before[..k] == es[..k];
    }
    assert WritesLater(blocks, es, t, last) <==> GivesUp(At(blocks, es, last), es[last], t);
  }

  lemma UnlinksLaterNext(blocks: map<string, Block>, es: seq<Event>, t: nat)
    requires es != []
    ensures var last := |es| - 1;
      (exists k :: UnlinksLater(blocks, es, t, k)) <==>
        || WithdrawsSo(At(blocks, es, last), es[last], t, TimedOut)
        || ((exists k :: UnlinksLater(blocks, es[..last], t, k)) && !SettlesUnlink(es[last], t))
  {
    hide WithdrawsSo, SettlesUnlink;
    var last := |es| - 1;
    var before := es[..last];
    forall k: nat | k < last
      ensures UnlinksLater(blocks, es, t, k) <==> UnlinksLater(blocks, before, t, k) && !SettlesUnlink(es[last], t)
    {
      assert before[..k] == es[..k];
    }
    assert UnlinksLater(blocks, es, t, last) <==> WithdrawsSo(At(blocks, es, last), es[last], t, TimedOut);
  }

  lemma LateWriteNext(s: State, e: Event, t: nat)
    ensures t in Next(s, e).d.lateWrites <==> GivesUp(s, e, t) || (t in s.d.lateWrites && !SettlesWrite(e, t))
  {
    hide KeysNext;
  }

  lemma LateUnlinkNext(s: State, e: Event, t: nat)
    ensures t in Next(s, e).d.lateUnlinks
       <==> WithdrawsSo(s, e, t, TimedOut) || (t in s.d.lateUnlinks && !SettlesUnlink(e, t))
  {
    hide KeysNext;
  }

  /**
   A block may still be written exactly after a tunnel gave up on its publication, until that
   comes, fails, or the process is killed.
   */
  lemma {:induction false} AWriteMayComeLate(blocks: map<string, Block>, es: seq<Event>, t: nat)
    ensures t in Run(Init(blocks), es).d.lateWrites <==> exists k :: WritesLater(blocks, es, t, k)
  {
    if es != [] {
      hide Next, GivesUp, SettlesWrite, WritesLater;
      var last := |es| - 1;
      AWriteMayComeLate(blocks, es[..last], t);
      AtNext(blocks, es);
      WritesLaterNext(blocks, es, t);
      LateWriteNext(At(blocks, es, last), es[last], t);
    }
  }

  /** And one may still be removed after a withdrawal that took too long. */
  lemma {:induction false} AnUnlinkMayComeLate(blocks: map<string, Block>, es: seq<Event>, t: nat)
    ensures t in Run(Init(blocks), es).d.lateUnlinks <==> exists k :: UnlinksLater(blocks, es, t, k)
  {
    if es != [] {
      hide Next, WithdrawsSo, SettlesUnlink, UnlinksLater;
      var last := |es| - 1;
      AnUnlinkMayComeLate(blocks, es[..last], t);
      AtNext(blocks, es);
      UnlinksLaterNext(blocks, es, t);
      LateUnlinkNext(At(blocks, es, last), es[last], t);
    }
  }

  /** It gave up on its publication, or its withdrawal failed or took too long, or it was killed. */
  ghost predicate LeavesIt(s: State, e: Event, t: nat) {
    || GivesUp(s, e, t)
    || WithdrawsSo(s, e, t, Refused) || WithdrawsSo(s, e, t, TimedOut)
    || (e == Kill(t) && t in s.k.tunnels)
  }

  ghost predicate LeavesAt(blocks: map<string, Block>, es: seq<Event>, t: nat, k: nat) {
    k < |es| && LeavesIt(At(blocks, es, k), es[k], t)
  }

  lemma LeftNext(s: State, e: Event, t: nat)
    ensures t in Next(s, e).d.left <==> t in s.d.left || LeavesIt(s, e, t)
  {
  }

  /** Those are the tunnels that may have left a block. */
  lemma {:induction false} WhoMayLeaveABlock(blocks: map<string, Block>, es: seq<Event>, t: nat)
    ensures t in Run(Init(blocks), es).d.left <==> exists k :: LeavesAt(blocks, es, t, k)
  {
    if es != [] {
      hide Next, LeavesIt;
      var last := |es| - 1;
      var before := es[..last];
      WhoMayLeaveABlock(blocks, before, t);
      AtNext(blocks, es);
      LeftNext(At(blocks, es, last), es[last], t);
      forall k: nat | k < last
        ensures LeavesAt(blocks, es, t, k) == LeavesAt(blocks, before, t, k)
      {
        assert before[..k] == es[..k];
      }
      assert LeavesAt(blocks, es, t, last) == LeavesIt(At(blocks, es, last), es[last], t);
    }
  }

  // The block under a name

  /** The event writes this block under the name. */
  ghost function Written(s: State, e: Event, name: string): Option<Block> {
    match e
    case Publish(t, port, written) =>
      if written && IsStarting(s.k, t) && s.k.tunnels[t].alias == name then Some(Block(Some(t), port)) else None
    case LateWrite(t) =>
      if t in s.d.lateWrites && s.d.lateWrites[t].alias == name
      then Some(Block(Some(t), s.d.lateWrites[t].port)) else None
    case Drop(dropped, port) => if dropped == name && name !in s.d.blocks then Some(Block(None, port)) else None
    case _ => None
  }

  /** The event removes whatever is under the name. */
  ghost predicate Removes(s: State, e: Event, name: string) {
    match e
    case Withdraw(t, how) => how == Done && MayWithdraw(s.k, t) && s.k.tunnels[t].alias == name
    case LateUnlink(t) => t in s.d.lateUnlinks && s.d.lateUnlinks[t] == name
    case Unlink(p) => IsDoomed(s.k, p) && s.k.probers[p].name == name
    case _ => false
  }

  ghost predicate Touches(s: State, e: Event, name: string) {
    Written(s, e, name).Some? || Removes(s, e, name)
  }

  function Found(s: State, name: string): Option<Block> {
    if name in s.d.blocks then Some(s.d.blocks[name]) else None
  }

  ghost predicate TouchesAt(blocks: map<string, Block>, es: seq<Event>, k: nat, name: string)
    requires k < |es|
  {
    Touches(At(blocks, es, k), es[k], name)
  }

  ghost predicate TouchedLast(blocks: map<string, Block>, es: seq<Event>, k: nat, name: string) {
    k < |es| && TouchesAt(blocks, es, k, name) && forall j :: k < j < |es| ==> !TouchesAt(blocks, es, j, name)
  }

  lemma FoundNext(s: State, e: Event, name: string)
    ensures Found(Next(s, e), name) ==
      if Written(s, e, name).Some? then Written(s, e, name) else if Removes(s, e, name) then None else Found(s, name)
  {
  }

  lemma TouchesBefore(blocks: map<string, Block>, es: seq<Event>, n: nat, k: nat, name: string)
    requires k < n <= |es|
    ensures TouchesAt(blocks, es[..n], k, name) == TouchesAt(blocks, es, k, name)
  {
    assert es[..n][..k] == es[..k];
  }

  /**
   Under a name is what the last event that wrote a block there or removed one has left: a
   tunnel that is killed, or cannot withdraw its block, leaves it.
   */
  lemma {:induction false} TheLastOneStays(blocks: map<string, Block>, es: seq<Event>, k: nat, name: string)
    requires TouchedLast(blocks, es, k, name)
    ensures Found(Run(Init(blocks), es), name) == Written(At(blocks, es, k), es[k], name)
    decreases |es|
  {
    hide Next, Written, Removes, Found;
    var last := |es| - 1;
    AtNext(blocks, es);
    FoundNext(At(blocks, es, last), es[last], name);
    if k < last {
      assert !TouchesAt(blocks, es, last, name);
      forall j | k <= j < last
        ensures TouchesAt(blocks, es[..last], j, name) == TouchesAt(blocks, es, j, name)
      {
        TouchesBefore(blocks, es, last, j, name);
      }
      assert es[..last][..k] == es[..k];
      TheLastOneStays(blocks, es[..last], k, name);
    }
  }

  /** And what was there at first stays, if there is no such event. */
  lemma {:induction false} TheFirstOneStays(blocks: map<string, Block>, es: seq<Event>, name: string)
    requires forall k :: 0 <= k < |es| ==> !TouchesAt(blocks, es, k, name)
    ensures Found(Run(Init(blocks), es), name) ==
      if name in blocks then Some(Block(None, blocks[name].port)) else None
  {
    if es != [] {
      hide Next, Written, Removes;
      var last := |es| - 1;
      AtNext(blocks, es);
      FoundNext(At(blocks, es, last), es[last], name);
      assert !TouchesAt(blocks, es, last, name);
      forall j | 0 <= j < last
        ensures !TouchesAt(blocks, es[..last], j, name)
      {
        TouchesBefore(blocks, es, last, j, name);
      }
      TheFirstOneStays(blocks, es[..last], name);
    }
  }
}
