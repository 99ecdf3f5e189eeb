/**
 The lease watchdog's loop, against the tunnel's heartbeats. Times are readings of
 the shell's `SECONDS`, in whole seconds, unless they are real.
 */
module Watchdog {
  import opened Prelude

  /**
   One turn of the loop: whether sshd still runs, the latest sequence the scan found,
   and the clock as read for `last_seen`, and then for the timeout.
   */
  datatype Round = Round(sshdRuns: bool, seen: Option<nat>, seenAt: int, now: int)

  datatype Reason = SshdExited | HeartbeatTimeout | StillWatching

  /** The watchdog's `last_sequence` and `last_seen`. */
  datatype Track = Track(last: Option<nat>, lastSeen: int)

  predicate Newer(seen: Option<nat>, last: Option<nat>) {
    seen.Some? && (last.None? || seen.value > last.value)
  }

  /** After the scans of `rounds`. */
  function Tracked(begin: Track, rounds: seq<Round>): Track {
    if rounds == [] then begin else TrackNext(Tracked(begin, rounds[..|rounds| - 1]), rounds[|rounds| - 1])
  }

  function TrackNext(before: Track, r: Round): Track {
    if Newer(r.seen, before.last) then Track(r.seen, r.seenAt) else before
  }

  /** Whether the check of round `i` finds that no newer lease has come in time. */
  predicate Expired(timeout: nat, begin: Track, rounds: seq<Round>, i: nat)
    requires i < |rounds|
  {
    rounds[i].now - Tracked(begin, rounds[..i + 1]).lastSeen >= timeout
  }

  /** The loop is left in round `k`, the first that finds sshd gone or the last new lease too long ago. */
  ghost predicate Watched(timeout: nat, begin: Track, rounds: seq<Round>, reason: Reason, k: nat) {
    && k <= |rounds| && (k == |rounds| <==> reason == StillWatching)
    && (forall i :: 0 <= i < k ==> rounds[i].sshdRuns && !Expired(timeout, begin, rounds, i))
    && (k < |rounds| ==> (reason == SshdExited <==> !rounds[k].sshdRuns))
    && (reason == HeartbeatTimeout ==> Expired(timeout, begin, rounds, k))
  }

  /** The watchdog's loop, over `rounds`: why it was left, and in which round. */
  method Watch(timeout: nat, begin: Track, rounds: seq<Round>) returns (reason: Reason, k: nat)
    ensures Watched(timeout, begin, rounds, reason, k)
  {
    var last, lastSeen := begin.last, begin.lastSeen;
    k := 0;
    assert rounds[..0] == [];
    while k < |rounds| && rounds[k].sshdRuns
      invariant k <= |rounds|
      invariant Tracked(begin, rounds[..k]) == Track(last, lastSeen)
      invariant forall i :: 0 <= i < k ==> rounds[i].sshdRuns && !Expired(timeout, begin, rounds, i)
    {
      assert rounds[..k + 1][..k] == rounds[..k];
      var sequence := rounds[k].seen;
      if sequence.Some? && (last.None? || sequence.value > last.value) {
        last, lastSeen := sequence, rounds[k].seenAt;
      }
      if rounds[k].now - lastSeen >= timeout {
        return HeartbeatTimeout, k;
      }
      k := k + 1;
    }
    return if k < |rounds| then SshdExited else StillWatching, k;
  }

  // The tunnel's side

  /**
   When each lease became visible, and its sequence; how many were when the watchdog
   began, and at each scan. Scans are atomic: each finds the latest of those.
   */
  datatype Schedule = Schedule(at: seq<int>, sequences: seq<nat>, atStart: nat, atScan: seq<nat>)

  function Latest(s: Schedule, count: nat): Option<nat>
    requires count <= |s.sequences|
  {
    if count == 0 then None else Some(s.sequences[count - 1])
  }

  /** How many leases were visible at the last scan before round `i`. */
  function CountBefore(s: Schedule, i: nat): nat
    requires i <= |s.atScan|
  {
    if i == 0 then s.atStart else s.atScan[i - 1]
  }

  /** The leases' sequences and what is visible of them only grow. */
  ghost predicate Ordered(s: Schedule) {
    && |s.at| == |s.sequences|
    && (forall k, l :: 0 <= k < l < |s.at| ==> s.sequences[k] < s.sequences[l])
    && s.atStart <= |s.at|
    && (forall i :: 0 <= i < |s.atScan| ==> Grows(s, i))
  }

  predicate Grows(s: Schedule, i: nat)
    requires i < |s.atScan|
  {
    CountBefore(s, i) <= s.atScan[i] <= |s.at|
  }

  /**
   A round whose scan found the first `n` leases visible. Its clock is read after its
   scan, so after those became visible; and before `stall` seconds after the next did.
   */
  predicate Fits(s: Schedule, start: int, stall: nat, r: Round, n: nat)
    requires |s.at| == |s.sequences|
  {
    && n <= |s.at|
    && r.seen == Latest(s, n)
    && start <= r.seenAt <= r.now
    && LastAt(s, start, n) <= r.seenAt
    && (n < |s.at| ==> r.now <= s.at[n] + stall)
  }

  /** The rounds as they go with that schedule, the watchdog having begun at `start`. */
  ghost predicate Observes(s: Schedule, start: int, stall: nat, rounds: seq<Round>) {
    && Ordered(s)
    && |rounds| == |s.atScan|
    && (forall i :: 0 <= i < |rounds| ==> Fits(s, start, stall, rounds[i], s.atScan[i]))
  }

  /** When the last lease visible became so, or when the watchdog began, if none has since. */
  function LastAt(s: Schedule, start: int, count: nat): int
    requires count <= |s.at|
  {
    if count <= s.atStart then start else s.at[count - 1]
  }

  function Begin(s: Schedule, start: int): Track
    requires s.atStart <= |s.sequences|
  {
    Track(Latest(s, s.atStart), start)
  }

  /** The watchdog tracks the latest lease, since no earlier than it became visible. */
  lemma {:induction false} TracksTheLatest(s: Schedule, start: int, stall: nat, rounds: seq<Round>, i: nat)
    requires Observes(s, start, stall, rounds) && i <= |rounds|
    ensures CountBefore(s, i) <= |s.at|
    ensures var t := Tracked(Begin(s, start), rounds[..i]);
      && t.last == Latest(s, CountBefore(s, i))
      && LastAt(s, start, CountBefore(s, i)) <= t.lastSeen
  {
    if i > 0 {
      TracksTheLatest(s, start, stall, rounds, i - 1);
      TrackedNext(Begin(s, start), rounds, i - 1);
      assert Grows(s, i - 1) && Fits(s, start, stall, rounds[i - 1], s.atScan[i - 1]);
      TracksTheNext(s, start, stall, rounds[i - 1], CountBefore(s, i - 1), s.atScan[i - 1]);
    }
  }

  lemma TrackedNext(begin: Track, rounds: seq<Round>, i: nat)
    requires i < |rounds|
    ensures Tracked(begin, rounds[..i + 1]) == TrackNext(Tracked(begin, rounds[..i]), rounds[i])
  {
    assert rounds[..i + 1][..i] == rounds[..i];
  }

  /** A scan either finds a newer lease, or the one tracked. */
  lemma TracksTheNext(s: Schedule, start: int, stall: nat, r: Round, before: nat, n: nat)
    requires Ordered(s) && before <= n <= |s.at| && Fits(s, start, stall, r, n)
    ensures Newer(r.seen, Latest(s, before)) <==> before < n
    ensures before == n ==> r.seen == Latest(s, before)
  {
  }

  lemma {:induction false} CountsGrow(s: Schedule, i: nat)
    requires Ordered(s) && i <= |s.atScan|
    ensures s.atStart <= CountBefore(s, i) <= |s.at|
  {
    if i > 0 {
      CountsGrow(s, i - 1);
      assert Grows(s, i - 1);
    }
  }

  /** Each lease comes less than the timeout after the one before it, or after the watchdog began. */
  ghost predicate Steady(s: Schedule, start: int, stall: nat, timeout: nat) {
    |s.at| == |s.sequences|
    && forall k :: s.atStart <= k < |s.at| ==> InTime(s, start, stall, timeout, k)
  }

  predicate InTime(s: Schedule, start: int, stall: nat, timeout: nat, k: nat)
    requires k < |s.at|
  {
    s.at[k] + stall - LastAt(s, start, k) < timeout
  }

  /**
   While the next lease is still to come, and comes in time, a check never finds the
   timeout passed, whatever the time between the scans.
   */
  lemma SteadyLeasesNeverExpire(s: Schedule, start: int, stall: nat, timeout: nat, rounds: seq<Round>, i: nat)
    requires Observes(s, start, stall, rounds) && Steady(s, start, stall, timeout)
    requires i < |rounds| && (s.atScan[i] < |s.at| || rounds[i].now - LastAt(s, start, |s.at|) < timeout)
    ensures !Expired(timeout, Begin(s, start), rounds, i)
  {
    TracksTheLatest(s, start, stall, rounds, i + 1);
    CountsGrow(s, i + 1);
    assert Fits(s, start, stall, rounds[i], s.atScan[i]);
    assert s.atScan[i] < |s.at| ==> InTime(s, start, stall, timeout, s.atScan[i]);
  }

  /** With scans that find `scans` leases, the check of round `i` expires though the next lease is still to come. */
  ghost predicate Alarms(
    s: Schedule, start: int, stall: nat, timeout: nat, scans: seq<nat>, rounds: seq<Round>, i: nat)
    requires s.atStart <= |s.sequences|
  {
    && Observes(s.(atScan := scans), start, stall, rounds)
    && i < |rounds| && scans[i] < |s.at| && Expired(timeout, Begin(s, start), rounds, i)
  }

  /**
   Exactly if each lease, and the longest stall of a check, comes in time after the one
   before is there no scanning, however fast or slow, that raises an alarm.
   */
  lemma SteadyExactlyIfNothingAlarms(s: Schedule, start: int, stall: nat, timeout: nat)
    requires Ordered(s) && InOrder(s, start)
    ensures Steady(s, start, stall, timeout)
            <==> forall scans: seq<nat>, rounds, i: nat :: !Alarms(s, start, stall, timeout, scans, rounds, i)
  {
    if Steady(s, start, stall, timeout) {
      forall scans: seq<nat>, rounds, i: nat
        ensures !Alarms(s, start, stall, timeout, scans, rounds, i)
      {
        if Observes(s.(atScan := scans), start, stall, rounds) && i < |rounds| && scans[i] < |s.at| {
          SteadyScanned(s, start, stall, timeout, scans);
          SteadyLeasesNeverExpire(s.(atScan := scans), start, stall, timeout, rounds, i);
        }
      }
    } else {
      var k :| s.atStart <= k < |s.at| && !InTime(s, start, stall, timeout, k);
      ALateLeaseAlarms(s, start, stall, timeout, k);
    }
  }

  /** Whether leases come in time does not depend on the scans. */
  lemma SteadyScanned(s: Schedule, start: int, stall: nat, timeout: nat, scans: seq<nat>)
    requires Steady(s, start, stall, timeout)
    ensures Steady(s.(atScan := scans), start, stall, timeout)
  {
    forall k | s.atStart <= k < |s.at|
      ensures InTime(s.(atScan := scans), start, stall, timeout, k)
    {
      assert InTime(s, start, stall, timeout, k);
    }
  }

  /** A scan just after one lease, and its check just before it would have to have seen a late next one. */
  lemma ALateLeaseAlarms(s: Schedule, start: int, stall: nat, timeout: nat, k: nat)
    requires Ordered(s) && InOrder(s, start) && s.atStart <= k < |s.at| && !InTime(s, start, stall, timeout, k)
    ensures Alarms(
      s, start, stall, timeout, [k], [Round(true, Latest(s, k), LastAt(s, start, k), s.at[k] + stall)], 0)
  {
    var t := s.(atScan := [k]);
    var r := Round(true, Latest(s, k), LastAt(s, start, k), s.at[k] + stall);
    assert CountBefore(t, 0) == s.atStart && Grows(t, 0);
    assert Fits(t, start, stall, r, k);
    assert [r][..0 + 1] == [r] && [r][..0] == [];
    TrackedNext(Begin(s, start), [r], 0);
    TracksTheNext(t, start, stall, r, s.atStart, k);
  }

  function NowBefore(start: int, rounds: seq<Round>, i: nat): int
    requires i <= |rounds|
  {
    if i == 0 then start else rounds[i - 1].now
  }

  /** The clock of a loop whose turns are at most `period` apart. */
  ghost predicate Paced(start: int, period: nat, rounds: seq<Round>) {
    forall i :: 0 <= i < |rounds| ==> Turn(start, period, rounds, i)
  }

  predicate Turn(start: int, period: nat, rounds: seq<Round>, i: nat)
    requires i < |rounds|
  {
    NowBefore(start, rounds, i) <= rounds[i].seenAt <= rounds[i].now <= NowBefore(start, rounds, i) + period
  }

  lemma {:induction false} NowGrows(start: int, period: nat, rounds: seq<Round>, i: nat, j: nat)
    requires Paced(start, period, rounds) && i <= j < |rounds|
    ensures NowBefore(start, rounds, i) <= rounds[i].now <= rounds[j].now
    decreases j
  {
    assert Turn(start, period, rounds, j);
    if i < j {
      NowGrows(start, period, rounds, i, j - 1);
    }
  }

  /** Once the last lease is found, it has been since a period after it became visible, or less. */
  lemma {:induction false} SeenWithinAPeriod(
    s: Schedule, start: int, stall: nat, period: nat, rounds: seq<Round>, i: nat)
    requires Observes(s, start, stall, rounds) && Paced(start, period, rounds) && InOrder(s, start)
    requires i < |rounds| && s.atScan[i] == |s.at|
    ensures Tracked(Begin(s, start), rounds[..i + 1]).lastSeen <= LastAt(s, start, |s.at|) + stall + period
  {
    TracksTheLatest(s, start, stall, rounds, i);
    CountsGrow(s, i);
    TrackedNext(Begin(s, start), rounds, i);
    var before := CountBefore(s, i);
    assert Grows(s, i) && Fits(s, start, stall, rounds[i], s.atScan[i]) && Turn(start, period, rounds, i);
    TracksTheNext(s, start, stall, rounds[i], before, |s.at|);
    if before == |s.at| {
      if i > 0 {
        SeenWithinAPeriod(s, start, stall, period, rounds, i - 1);
      } else {
        assert rounds[..0] == [];
      }
    } else {
      assert NowBefore(start, rounds, i) <= LastAt(s, start, |s.at|) + stall by {
        if i > 0 {
          assert Fits(s, start, stall, rounds[i - 1], before);
        }
      }
      assert rounds[i].seenAt <= NowBefore(start, rounds, i) + period;
    }
  }

  /** The times of a schedule are in order, and those after the watchdog began after that. */
  ghost predicate InOrder(s: Schedule, start: int) {
    && (forall k, l :: 0 <= k <= l < |s.at| ==> s.at[k] <= s.at[l])
    && (forall k :: s.atStart <= k < |s.at| ==> start <= s.at[k])
  }

  /** The first round from which on the clock reads `limit` or more. */
  lemma {:induction false} FirstAt(start: int, period: nat, rounds: seq<Round>, limit: int, i: nat) returns (first: nat)
    requires Paced(start, period, rounds) && i < |rounds| && rounds[i].now >= limit
    ensures first <= i && rounds[first].now >= limit && (first > 0 ==> rounds[first - 1].now < limit)
    decreases i
  {
    if i > 0 && rounds[i - 1].now >= limit {
      first := FirstAt(start, period, rounds, limit, i - 1);
    } else {
      first := i;
    }
  }

  /**
   Once leases have stopped for good, the watchdog has left its loop by the first
   round that ends a timeout and a period after the last of them, and no later than
   another period after that.
   */
  lemma TheWatchdogLeavesInTime(
    s: Schedule, start: int, stall: nat, timeout: nat, period: nat, rounds: seq<Round>, reason: Reason, k: nat, i: nat)
    requires Observes(s, start, stall, rounds) && Paced(start, period, rounds) && InOrder(s, start)
    requires k <= |rounds| && (k == |rounds| <==> reason == StillWatching)
    requires forall j :: 0 <= j < k ==> !Expired(timeout, Begin(s, start), rounds, j)
    requires i < |rounds| && s.atScan[i] == |s.at|
    requires rounds[i].now >= LastAt(s, start, |s.at|) + stall + period + timeout
    ensures reason != StillWatching && k <= i
    ensures rounds[k].now <= LastAt(s, start, |s.at|) + stall + timeout + 2 * period
  {
    SeenWithinAPeriod(s, start, stall, period, rounds, i);
    assert Expired(timeout, Begin(s, start), rounds, i);
    assert Turn(start, period, rounds, k);
    if k > 0 {
      assert Grows(s, k - 1) && Fits(s, start, stall, rounds[k - 1], s.atScan[k - 1]);
      assert !Expired(timeout, Begin(s, start), rounds, k - 1);
      if s.atScan[k - 1] == |s.at| {
        SeenWithinAPeriod(s, start, stall, period, rounds, k - 1);
      } else {
        CountsGrow(s, k);
      }
    }
  }

  /** A check comes before the next lease, or, after the last, less than the timeout after that. */
  ghost predicate ChecksInTime(s: Schedule, start: int, timeout: nat, rounds: seq<Round>) {
    && |rounds| == |s.atScan|
    && forall i :: 0 <= i < |rounds| ==> s.atScan[i] < |s.at| || rounds[i].now - LastAt(s, start, |s.at|) < timeout
  }

  /**
   As long as leases come in time, each of them or, after the last, the check, the
   watchdog does not report a timeout.
   */
  lemma SteadyLeasesRaiseNoAlarm(
    s: Schedule, start: int, stall: nat, timeout: nat, rounds: seq<Round>, reason: Reason, k: nat)
    requires Observes(s, start, stall, rounds) && Steady(s, start, stall, timeout)
    requires ChecksInTime(s, start, timeout, rounds)
    requires Watched(timeout, Begin(s, start), rounds, reason, k)
    ensures reason != HeartbeatTimeout
  {
    if reason == HeartbeatTimeout {
      SteadyLeasesNeverExpire(s, start, stall, timeout, rounds, k);
    }
  }

  /**
   A scan and its check are two steps. Leases a minute apart, with a timeout of 90
   seconds, are not enough if the check comes half a minute after the scan.
   */
  lemma AStalledCheckMayRaiseAnAlarm()
    ensures exists s: Schedule, rounds ::
      Observes(s, 0, 30, rounds) && |rounds| == 1 && Steady(s, 0, 0, 90) && Expired(90, Begin(s, 0), rounds, 0)
  {
    var s := Schedule([60], [1], 0, [0]);
    var rounds := [Round(true, None, 90, 90)];
    assert Grows(s, 0);
    assert rounds[..0 + 1] == rounds && rounds[..0] == [];
    assert Tracked(Begin(s, 0), rounds) == Begin(s, 0);
    assert Fits(s, 0, 30, rounds[0], 0);
    assert InTime(s, 0, 0, 90, 0);
    assert Observes(s, 0, 30, rounds);
  }

  // The heartbeats

  /**
   `_send_heartbeats`: when the lease of each heartbeat becomes visible, the first
   being begun at `started`, and `writes` being how long each takes.
   */
  method SendHeartbeats(started: real, interval: real, writes: seq<real>) returns (visible: seq<real>)
    ensures |visible| == |writes|
    ensures |writes| > 0 ==> visible[0] == started + writes[0]
    ensures forall k :: 0 < k < |writes| ==> visible[k] - visible[k - 1] == interval + writes[k]
  {
    visible := [];
    var now := started;
    for i := 0 to |writes|
      invariant |visible| == i
      invariant i > 0 ==> now == visible[i - 1] + interval
      invariant i == 0 ==> now == started
      invariant i > 0 ==> visible[0] == started + writes[0]
      invariant forall k :: 0 < k < i ==> visible[k] - visible[k - 1] == interval + writes[k]
    {
      now := now + writes[i];
      visible := visible + [now];
      now := now + interval;
    }
  }

  /** The watchdog's clock, which counts whole seconds. */
  function Clock(shellStarted: real, time: real): int {
    time.Floor - shellStarted.Floor
  }

  lemma ClockGap(shellStarted: real, a: real, b: real, gap: nat)
    requires b - a <= gap as real
    ensures Clock(shellStarted, b) - Clock(shellStarted, a) <= gap
  {
    assert b.Floor as real <= b && a < (a.Floor + 1) as real;
    assert b.Floor as real < (a.Floor + 1 + gap) as real;
  }

  /** A run of heartbeats: when the shell and the watchdog began, and when each lease became visible. */
  datatype Heartbeats = Heartbeats(
    shellStarted: real, begun: real, interval: real, slowest: real, writes: seq<real>, visible: seq<real>)
  {
    /** As `SendHeartbeats` spaces them. */
    ghost predicate Spaced() {
      && |visible| == |writes|
      && (forall j :: 0 <= j < |writes| ==> writes[j] <= slowest)
      && (forall j :: 0 < j < |writes| ==> visible[j] - visible[j - 1] == interval + writes[j])
    }

    /** With no more than `most` seconds to each. */
    predicate Within(most: real) {
      interval + slowest <= most && (|visible| > 0 ==> visible[0] - begun <= most)
    }

    function Start(): int {
      Clock(shellStarted, begun)
    }
  }

  /** The leases of `s` since the watchdog began are those heartbeats', by the shell's clock. */
  ghost predicate Are(s: Schedule, b: Heartbeats) {
    && s.atStart <= |s.at| == |s.sequences| && |b.visible| == |s.at| - s.atStart
    && forall k :: s.atStart <= k < |s.at| ==> s.at[k] == Clock(b.shellStarted, b.visible[k - s.atStart])
  }

  /**
   Heartbeats whose interval and slowest write add up to a second less than the
   timeout, or less, come in time by the watchdog's clock, if the first did.
   */
  lemma HeartbeatsAreSteady(s: Schedule, b: Heartbeats, stall: nat, timeout: nat)
    requires b.Spaced() && Are(s, b)
    requires stall < timeout && b.Within((timeout - 1 - stall) as real)
    ensures Steady(s, b.Start(), stall, timeout)
  {
    forall k | s.atStart <= k < |s.at|
      ensures InTime(s, b.Start(), stall, timeout, k)
    {
      var i := k - s.atStart;
      var before := if i == 0 then b.begun else b.visible[i - 1];
      ClockGap(b.shellStarted, before, b.visible[i], timeout - 1 - stall);
      assert LastAt(s, b.Start(), k) == Clock(b.shellStarted, before) by {
        if i > 0 {
          assert s.at[k - 1] == Clock(b.shellStarted, b.visible[k - 1 - s.atStart]);
        }
      }
    }
  }
}
