/** The terminal's replay: what an ERROR record brings out, against the whole trace of records. */
module Replay {
  const ERROR := 40

  /** A log record: its level, whether it was logged with `REPLAY_ON_ERROR`, and whether asyncssh logged it. */
  datatype Record = Record(level: int, replayOnError: bool, fromAsyncssh: bool, message: string)

  // What it is for, in terms of the trace

  /** Below the target's level, and to be kept. */
  predicate Lower(level: int, r: Record) {
    r.level < level && r.replayOnError
  }

  /** Shown, and an error: it brings out what is kept. */
  predicate Brings(level: int, r: Record) {
    r.level >= level && r.level >= 40
  }

  /** How many records of the trace from `i` on are to be kept. */
  function Count(level: int, trace: seq<Record>, i: nat): nat
    requires i <= |trace|
    decreases |trace| - i
  {
    if i == |trace| then 0 else (if Lower(level, trace[i]) then 1 else 0) + Count(level, trace, i + 1)
  }

  /** The first error from `i` on that brings out what is kept, or the end. */
  function Next(level: int, trace: seq<Record>, i: nat): (e: nat)
    requires i <= |trace|
    ensures i <= e <= |trace|
    decreases |trace| - i
  {
    if i == |trace| || Brings(level, trace[i]) then i else Next(level, trace, i + 1)
  }

  /** When record `i` is shown, if it is: at once, or with the next error. */
  function When(level: int, trace: seq<Record>, i: nat): nat
    requires i < |trace|
  {
    if trace[i].level >= level then i else Next(level, trace, i)
  }

  /** Record `i` is shown if it is at the level, or is one of the last `capacity` to be kept before the next error. */
  predicate IsShown(level: int, capacity: nat, trace: seq<Record>, i: nat)
    requires i < |trace|
  {
    || trace[i].level >= level
    || (var e := Next(level, trace, i);
        e < |trace| && Lower(level, trace[i]) && Count(level, trace[..e], i + 1) < capacity)
  }

  /** Shown earlier: by when, then as logged. */
  predicate Before(level: int, trace: seq<Record>, i: nat, j: nat)
    requires i < |trace| && j < |trace|
  {
    When(level, trace, i) < When(level, trace, j) || (When(level, trace, i) == When(level, trace, j) && i < j)
  }

  ghost predicate InRange(trace: seq<Record>, at: seq<nat>) {
    forall k :: 0 <= k < |at| ==> at[k] < |trace|
  }

  ghost predicate AreShown(level: int, capacity: nat, trace: seq<Record>, shown: seq<nat>) {
    forall i :: 0 <= i < |trace| ==> (i in shown <==> IsShown(level, capacity, trace, i))
  }

  ghost predicate InOrder(level: int, trace: seq<Record>, shown: seq<nat>)
    requires InRange(trace, shown)
  {
    forall k, l :: 0 <= k < l < |shown| ==> Before(level, trace, shown[k], shown[l])
  }

  /** `shown` are the records to be shown, each once, in their order. */
  ghost predicate Replayed(level: int, capacity: nat, trace: seq<Record>, shown: seq<nat>) {
    InRange(trace, shown) && AreShown(level, capacity, trace, shown) && InOrder(level, trace, shown)
  }

  ghost function Select(trace: seq<Record>, at: seq<nat>): (records: seq<Record>)
    requires InRange(trace, at)
    ensures |records| == |at|
    ensures forall k :: 0 <= k < |at| ==> records[k] == trace[at[k]]
  {
    seq(|at|, k requires 0 <= k < |at| => trace[at[k]])
  }

  // The handler

  /** What the handler holds, and what it has handed its target. */
  datatype State = State(kept: seq<Record>, handed: seq<Record>)

  /** A deque's `append`, with a `maxlen`. */
  function Appended<T>(kept: seq<T>, x: T, capacity: nat): seq<T> {
    var all := kept + [x];
    if |all| > capacity then all[|all| - capacity..] else all
  }

  function Emitted(level: int, capacity: nat, s: State, r: Record): State {
    if r.level < level then
      if r.replayOnError then s.(kept := Appended(s.kept, r, capacity)) else s
    else if r.level >= ERROR then State([], s.handed + s.kept + [r])
    else s.(handed := s.handed + [r])
  }

  /** `_Replay`, with a target whose level stays. */
  class Handler {
    const level: int
    const capacity: nat
    var kept: seq<Record>
    // What the target was handed.
    var handed: seq<Record>

    ghost var trace: seq<Record>
    ghost var keptAt: seq<nat>
    ghost var handedAt: seq<nat>

    ghost predicate Valid()
      reads this
    {
      && Kept(level, capacity, trace, keptAt)
      && Replayed(level, capacity, trace, handedAt)
      && kept == Select(trace, keptAt)
      && handed == Select(trace, handedAt)
    }

    constructor (level: int, capacity: nat)
      ensures Valid() && trace == [] && handed == []
      ensures this.level == level && this.capacity == capacity
    {
      this.level, this.capacity := level, capacity;
      kept, handed, trace, keptAt, handedAt := [], [], [], [], [];
    }

    /** `emit` */
    method Emit(record: Record)
      requires Valid()
      modifies this
      ensures Valid() && trace == old(trace) + [record]
      ensures State(kept, handed) == Emitted(level, capacity, State(old(kept), old(handed)), record)
    {
      ghost var n := |trace|;
      trace := trace + [record];
      if record.level < level {
        if record.replayOnError {
          KeepOne(level, capacity, old(trace), record, keptAt);
          ShowNone(level, capacity, old(trace), record, handedAt);
          kept := Appended(kept, record, capacity);
          keptAt := Appended(keptAt, n, capacity);
        } else {
          KeepSame(level, capacity, old(trace), record, keptAt);
          ShowNone(level, capacity, old(trace), record, handedAt);
        }
        return;
      }
      if record.level >= ERROR {
        ghost var handedBefore, keptBefore := handed, kept;
        var i := 0;
        while kept != []
          invariant trace == old(trace) + [record]
          invariant 0 <= i <= |keptBefore| && kept == keptBefore[i..]
          invariant handed == handedBefore + keptBefore[..i]
          invariant keptAt == old(keptAt) && handedAt == old(handedAt)
          decreases |kept|
        {
          handed := handed + [kept[0]];
          kept := kept[1..];
          i := i + 1;
        }
        assert handed == handedBefore + keptBefore;
        ShowKept(level, capacity, old(trace), record, keptAt, handedAt);
        handedAt := handedAt + keptAt + [n];
        keptAt := [];
      } else {
        KeepSame(level, capacity, old(trace), record, keptAt);
        ShowOne(level, capacity, old(trace), record, handedAt);
        handedAt := handedAt + [n];
      }
      handed := handed + [record];
    }
  }

  // Why it does that

  /** Kept, and not shown yet. */
  predicate IsPending(level: int, capacity: nat, trace: seq<Record>, i: nat)
    requires i < |trace|
  {
    Lower(level, trace[i]) && Next(level, trace, i) == |trace| && Count(level, trace, i + 1) < capacity
  }

  ghost predicate ArePending(level: int, capacity: nat, trace: seq<Record>, kept: seq<nat>) {
    forall i :: 0 <= i < |trace| ==> (i in kept <==> IsPending(level, capacity, trace, i))
  }

  ghost predicate Ascending(at: seq<nat>) {
    forall k, l :: 0 <= k < l < |at| ==> at[k] < at[l]
  }

  /** After each there are as many to be kept as there are kept. */
  ghost predicate Ranked(level: int, trace: seq<Record>, kept: seq<nat>)
    requires InRange(trace, kept)
  {
    forall k :: 0 <= k < |kept| ==> Count(level, trace, kept[k] + 1) == |kept| - 1 - k
  }

  /** What is kept: the last `capacity` since the last error, in order. */
  ghost predicate Kept(level: int, capacity: nat, trace: seq<Record>, kept: seq<nat>) {
    && InRange(trace, kept) && |kept| <= capacity
    && ArePending(level, capacity, trace, kept) && Ascending(kept) && Ranked(level, trace, kept)
  }

  lemma {:induction false} CountMore(level: int, trace: seq<Record>, r: Record, i: nat)
    requires i <= |trace|
    ensures Count(level, trace + [r], i) == Count(level, trace, i) + (if Lower(level, r) then 1 else 0)
    decreases |trace| - i
  {
    if i < |trace| {
      CountMore(level, trace, r, i + 1);
    } else {
      assert Count(level, trace + [r], |trace| + 1) == 0;
    }
  }

  lemma {:induction false} NextMore(level: int, trace: seq<Record>, r: Record, i: nat)
    requires i <= |trace|
    ensures Next(level, trace + [r], i) ==
      if Next(level, trace, i) < |trace| then Next(level, trace, i)
      else if Brings(level, r) then |trace| else |trace| + 1
    decreases |trace| - i
  {
    if i < |trace| && !Brings(level, trace[i]) {
      NextMore(level, trace, r, i + 1);
    }
  }

  /** How another record changes what is shown and kept of an earlier one, and when. */
  lemma OneMore(level: int, capacity: nat, trace: seq<Record>, r: Record, i: nat)
    requires i < |trace|
    ensures var all := trace + [r];
            && Count(level, all, i + 1) == Count(level, trace, i + 1) + (if Lower(level, r) then 1 else 0)
            && (IsShown(level, capacity, all, i) <==>
                  IsShown(level, capacity, trace, i) || (Brings(level, r) && IsPending(level, capacity, trace, i)))
            && (IsPending(level, capacity, all, i) <==>
                  && IsPending(level, capacity, trace, i) && !Brings(level, r)
                  && Count(level, all, i + 1) < capacity)
            && (IsShown(level, capacity, trace, i) ==> When(level, all, i) == When(level, trace, i) < |trace|)
            && (Brings(level, r) && IsPending(level, capacity, trace, i) ==> When(level, all, i) == |trace|)
            && (IsPending(level, capacity, trace, i) ==> !IsShown(level, capacity, trace, i))
  {
    var all := trace + [r];
    CountMore(level, trace, r, i + 1);
    NextMore(level, trace, r, i);
    var e := Next(level, trace, i);
    assert all[..e] == trace[..e] && trace[..|trace|] == trace;
  }

  lemma NewOne(level: int, capacity: nat, trace: seq<Record>, r: Record)
    ensures var all := trace + [r];
            && (IsShown(level, capacity, all, |trace|) <==> r.level >= level)
            && (IsPending(level, capacity, all, |trace|) <==> Lower(level, r) && capacity > 0)
            && (r.level >= level ==> When(level, all, |trace|) == |trace|)
            && Count(level, all, |all|) == 0
  {
    NextMore(level, trace, r, |trace|);
  }

  lemma KeepSame(level: int, capacity: nat, trace: seq<Record>, r: Record, kept: seq<nat>)
    requires Kept(level, capacity, trace, kept) && !Lower(level, r) && !Brings(level, r)
    ensures Kept(level, capacity, trace + [r], kept)
    ensures Select(trace + [r], kept) == Select(trace, kept)
  {
    var all := trace + [r];
    NewOne(level, capacity, trace, r);
    forall i | 0 <= i < |all|
      ensures i in kept <==> IsPending(level, capacity, all, i)
    {
      if i < |trace| {
        OneMore(level, capacity, trace, r, i);
      }
    }
    forall k | 0 <= k < |kept|
      ensures Count(level, all, kept[k] + 1) == |kept| - 1 - k
    {
      CountMore(level, trace, r, kept[k] + 1);
    }
  }

  lemma KeepOne(level: int, capacity: nat, trace: seq<Record>, r: Record, kept: seq<nat>)
    requires Kept(level, capacity, trace, kept) && Lower(level, r)
    ensures Kept(level, capacity, trace + [r], Appended(kept, |trace|, capacity))
    ensures Select(trace + [r], Appended(kept, |trace|, capacity)) == Appended(Select(trace, kept), r, capacity)
  {
    SelectAppended(capacity, trace, r, kept);
    if capacity == 0 {
      KeepNothing(level, trace, r);
      assert Appended(kept, |trace|, capacity) == [];
    } else if |kept| < capacity {
      KeepAlso(level, capacity, trace, r, kept, 0);
      assert kept[0..] == kept;
    } else {
      KeepAlso(level, capacity, trace, r, kept, 1);
      assert (kept + [|trace|])[1..] == kept[1..] + [|trace|];
    }
  }

  lemma SelectAppended(capacity: nat, trace: seq<Record>, r: Record, at: seq<nat>)
    requires InRange(trace, at)
    ensures InRange(trace + [r], Appended(at, |trace|, capacity))
    ensures Select(trace + [r], Appended(at, |trace|, capacity)) == Appended(Select(trace, at), r, capacity)
  {
    var all, now := at + [|trace|], Appended(at, |trace|, capacity);
    var records, nowRecords := Select(trace, at) + [r], Appended(Select(trace, at), r, capacity);
    var dropped := |all| - |now|;
    assert |nowRecords| == |now|;
    forall k | 0 <= k < |now|
      ensures now[k] < |trace| + 1 && (trace + [r])[now[k]] == nowRecords[k]
    {
      assert now[k] == all[k + dropped] && nowRecords[k] == records[k + dropped];
    }
  }

  lemma KeepNothing(level: int, trace: seq<Record>, r: Record)
    ensures Kept(level, 0, trace + [r], [])
  {
  }

  /** Without the oldest if there is no room for it. */
  lemma KeepAlso(level: int, capacity: nat, trace: seq<Record>, r: Record, kept: seq<nat>, dropped: nat)
    requires Kept(level, capacity, trace, kept) && Lower(level, r) && 0 < capacity
    requires dropped == if |kept| < capacity then 0 else 1
    ensures Kept(level, capacity, trace + [r], kept[dropped..] + [|trace|])
  {
    var all, now := trace + [r], kept[dropped..] + [|trace|];
    NewOne(level, capacity, trace, r);
    forall k | 0 <= k < |now|
      ensures Count(level, all, now[k] + 1) == |now| - 1 - k
    {
      if k < |now| - 1 {
        assert now[k] == kept[k + dropped];
        CountMore(level, trace, r, now[k] + 1);
      }
    }
    forall i | 0 <= i < |all|
      ensures i in now <==> IsPending(level, capacity, all, i)
    {
      if i == |trace| {
        assert now[|now| - 1] == i;
      } else {
        KeptStays(level, capacity, trace, r, kept, dropped, i);
      }
    }
  }

  lemma KeptStays(
    level: int, capacity: nat, trace: seq<Record>, r: Record, kept: seq<nat>, dropped: nat, i: nat)
    requires Kept(level, capacity, trace, kept) && Lower(level, r) && i < |trace| && 0 < capacity
    requires dropped == if |kept| < capacity then 0 else 1
    ensures i in kept[dropped..] + [|trace|] <==> IsPending(level, capacity, trace + [r], i)
  {
    OneMore(level, capacity, trace, r, i);
    assert i in kept[dropped..] + [|trace|] <==> i in kept[dropped..];
    if i in kept {
      var k :| 0 <= k < |kept| && kept[k] == i;
      assert Count(level, trace, kept[k] + 1) == |kept| - 1 - k;
      if k >= dropped {
        assert kept[dropped..][k - dropped] == i;
      } else {
        assert forall l :: 0 <= l < |kept[dropped..]| ==> kept[dropped..][l] > i;
      }
    }
  }

  lemma ShowNone(level: int, capacity: nat, trace: seq<Record>, r: Record, shown: seq<nat>)
    requires Replayed(level, capacity, trace, shown) && r.level < level
    ensures Replayed(level, capacity, trace + [r], shown)
    ensures Select(trace + [r], shown) == Select(trace, shown)
  {
    ShownStill(level, capacity, trace, r, [], shown);
    assert shown + [] == shown;
    NewOne(level, capacity, trace, r);
  }

  lemma ShowOne(level: int, capacity: nat, trace: seq<Record>, r: Record, shown: seq<nat>)
    requires Replayed(level, capacity, trace, shown) && r.level >= level && r.level < ERROR
    ensures Replayed(level, capacity, trace + [r], shown + [|trace|])
    ensures Select(trace + [r], shown + [|trace|]) == Select(trace, shown) + [r]
  {
    ShownStill(level, capacity, trace, r, [], shown);
    assert shown + [] == shown;
    ShowsIt(level, capacity, trace, r, shown);
  }

  lemma ShowKept(level: int, capacity: nat, trace: seq<Record>, r: Record, kept: seq<nat>, shown: seq<nat>)
    requires Kept(level, capacity, trace, kept) && Replayed(level, capacity, trace, shown) && Brings(level, r)
    ensures Kept(level, capacity, trace + [r], [])
    ensures Replayed(level, capacity, trace + [r], shown + kept + [|trace|])
    ensures Select(trace + [r], shown + kept + [|trace|]) == Select(trace, shown) + Select(trace, kept) + [r]
  {
    NewOne(level, capacity, trace, r);
    forall i | 0 <= i < |trace|
      ensures !IsPending(level, capacity, trace + [r], i)
    {
      OneMore(level, capacity, trace, r, i);
    }
    ShownStill(level, capacity, trace, r, kept, shown);
    ShowsIt(level, capacity, trace, r, shown + kept);
  }

  /** The earlier records that are shown by now: those shown before, and those kept if this brings them out. */
  lemma ShownStill(level: int, capacity: nat, trace: seq<Record>, r: Record, kept: seq<nat>, shown: seq<nat>)
    requires Replayed(level, capacity, trace, shown)
    requires if Brings(level, r) then Kept(level, capacity, trace, kept) else kept == []
    ensures InRange(trace, shown + kept) && InOrder(level, trace + [r], shown + kept)
    ensures forall i :: 0 <= i < |trace| ==> (i in shown + kept <==> IsShown(level, capacity, trace + [r], i))
    ensures forall k :: 0 <= k < |shown + kept| ==> When(level, trace + [r], (shown + kept)[k]) <= |trace|
  {
    var all, now := trace + [r], shown + kept;
    forall i | 0 <= i < |trace|
      ensures i in now <==> IsShown(level, capacity, all, i)
    {
      OneMore(level, capacity, trace, r, i);
    }
    forall k | 0 <= k < |shown|
      ensures When(level, all, shown[k]) == When(level, trace, shown[k]) < |trace|
    {
      assert shown[k] in shown;
      OneMore(level, capacity, trace, r, shown[k]);
    }
    forall k | 0 <= k < |kept|
      ensures When(level, all, kept[k]) == |trace|
    {
      assert kept[k] in kept;
      OneMore(level, capacity, trace, r, kept[k]);
    }
    forall k, l | 0 <= k < l < |now|
      ensures Before(level, all, now[k], now[l])
    {
      if l < |shown| {
        assert Before(level, trace, shown[k], shown[l]);
      } else if k >= |shown| {
        assert kept[k - |shown|] < kept[l - |shown|];
      }
    }
  }

  /** And the new one after them. */
  lemma ShowsIt(level: int, capacity: nat, trace: seq<Record>, r: Record, now: seq<nat>)
    requires r.level >= level && InRange(trace, now) && InOrder(level, trace + [r], now)
    requires forall i :: 0 <= i < |trace| ==> (i in now <==> IsShown(level, capacity, trace + [r], i))
    requires forall k :: 0 <= k < |now| ==> When(level, trace + [r], now[k]) <= |trace|
    ensures Replayed(level, capacity, trace + [r], now + [|trace|])
  {
    NewOne(level, capacity, trace, r);
    var all := trace + [r];
    assert (now + [|trace|])[|now|] == |trace|;
    assert forall i :: 0 <= i < |trace| ==> (i in now + [|trace|] <==> i in now);
  }

  /** There is only one such sequence. */
  lemma {:induction false} ReplayedIsUnique(level: int, capacity: nat, trace: seq<Record>, a: seq<nat>, b: seq<nat>)
    requires Replayed(level, capacity, trace, a) && Replayed(level, capacity, trace, b)
    ensures a == b
  {
    SameFrom(level, trace, a, b, 0);
  }

  lemma {:induction false} SameFrom(level: int, trace: seq<Record>, a: seq<nat>, b: seq<nat>, k: nat)
    requires InRange(trace, a) && InRange(trace, b)
    requires InOrder(level, trace, a) && InOrder(level, trace, b)
    requires forall i :: i in a <==> i in b
    requires k <= |a| && k <= |b| && a[..k] == b[..k]
    ensures a == b
    decreases |a| - k
  {
    if k < |a| && k < |b| {
      First(level, trace, a, b, k);
      First(level, trace, b, a, k);
      assert a[..k + 1] == b[..k + 1];
      SameFrom(level, trace, a, b, k + 1);
    } else if k < |a| {
      First(level, trace, a, b, k);
    } else if k < |b| {
      First(level, trace, b, a, k);
    }
  }

  /** Whatever `b` has at `k` or later is not before `a[k]`. */
  lemma First(level: int, trace: seq<Record>, a: seq<nat>, b: seq<nat>, k: nat)
    requires InRange(trace, a) && InRange(trace, b)
    requires InOrder(level, trace, a) && InOrder(level, trace, b)
    requires forall i :: i in a <==> i in b
    requires k < |a| && k <= |b| && a[..k] == b[..k]
    ensures k < |b| && (b[k] == a[k] || Before(level, trace, b[k], a[k]))
  {
    assert a[k] in a;
    var l :| 0 <= l < |b| && b[l] == a[k];
    forall m | 0 <= m < k
      ensures b[m] != a[k]
    {
      assert b[m] == b[..k][m] == a[..k][m] == a[m];
      assert Before(level, trace, a[m], a[k]);
    }
    if l > k {
      assert Before(level, trace, b[k], b[l]);
    }
  }
}
