/**
 Both sides of the lease protocol together: what the tunnel does to the control
 directory and when, and what the watchdog's scans of that directory make of it.
 */
module Protocol {
  import opened Prelude
  import opened Text
  import L = Leases
  import W = Watchdog

  /**
   What happened to the directory, each with the reading of the shell's clock; how much
   of it had when the watchdog began, and at each scan. A scan is one step.
   */
  datatype History = History(es: seq<L.Event>, times: seq<int>, begin: nat, scans: seq<nat>)

  ghost predicate InOrder(h: History) {
    && |h.times| == |h.es| && h.begin <= |h.es|
    && (forall i :: 0 <= i < |h.scans| ==> ScansOn(h, i))
  }

  /** No scan sees less than the one before it. */
  predicate ScansOn(h: History, i: nat)
    requires i < |h.scans|
  {
    (if i == 0 then h.begin else h.scans[i - 1]) <= h.scans[i] <= |h.es|
  }

  predicate Moves(e: L.Event) {
    e.Publish? && (e.attempt.Renamed? || e.attempt.Unanswered?)
  }

  /** When each lease became visible. */
  function Moments(es: seq<L.Event>, times: seq<int>): (at: seq<int>)
    requires |times| == |es|
    ensures |at| == |L.Visible(es)|
  {
    if es == [] then []
    else
      var last := |es| - 1;
      Moments(es[..last], times[..last]) + (if Moves(es[last]) then [times[last]] else [])
  }

  /** How many leases the first `n` events made visible. */
  function Seen(h: History, n: nat): nat
    requires n <= |h.es|
  {
    |L.Visible(h.es[..n])|
  }

  /** The history as the watchdog's schedule. */
  function ScheduleOf(h: History): W.Schedule
    requires InOrder(h)
  {
    W.Schedule(
      Moments(h.es, h.times), L.Visible(h.es), Seen(h, h.begin),
      seq(|h.scans|, i requires 0 <= i < |h.scans| => assert ScansOn(h, i); Seen(h, h.scans[i])))
  }

  /** What a scan of the directory finds after the first `n` events. */
  ghost predicate Finds(token: string, h: History, n: nat, found: Option<nat>)
    requires n <= |h.es|
  {
    L.IsLatest(L.ValidLeases(L.Readings(L.After(token, h.es[..n]).files, token)), found)
  }

  /** The clock of a round against the leases: after those its scan found, and no more than `stall` after the next. */
  predicate Clocked(s: W.Schedule, start: int, stall: nat, r: W.Round, n: nat)
    requires |s.at| == |s.sequences|
  {
    && n <= |s.at| && start <= r.seenAt <= r.now && W.LastAt(s, start, n) <= r.seenAt
    && (n < |s.at| ==> r.now <= s.at[n] + stall)
  }

  /** The watchdog's rounds, as they scan the directory. */
  ghost predicate Scanned(token: string, h: History, start: int, stall: nat, rounds: seq<W.Round>)
    requires InOrder(h)
  {
    && |rounds| == |h.scans|
    && forall i :: 0 <= i < |rounds| ==> ScannedAt(token, h, start, stall, rounds[i], i)
  }

  ghost predicate ScannedAt(token: string, h: History, start: int, stall: nat, r: W.Round, i: nat)
    requires InOrder(h) && i < |h.scans|
  {
    && ScansOn(h, i)
    && Finds(token, h, h.scans[i], r.seen) && Clocked(ScheduleOf(h), start, stall, r, Seen(h, h.scans[i]))
  }

  lemma {:induction false} VisibleSoFar(es: seq<L.Event>, n: nat)
    requires n <= |es|
    ensures L.Visible(es[..n]) <= L.Visible(es)
  {
    if n < |es| {
      assert es[..|es| - 1][..n] == es[..n];
      VisibleSoFar(es[..|es| - 1], n);
    } else {
      assert es[..n] == es;
    }
  }

  /** More events make as many leases visible, or more. */
  lemma SeenGrows(h: History, m: nat, n: nat)
    requires m <= n <= |h.es|
    ensures Seen(h, m) <= Seen(h, n) <= |L.Visible(h.es)|
  {
    assert h.es[..n][..m] == h.es[..m];
    VisibleSoFar(h.es[..n], m);
    VisibleSoFar(h.es, n);
  }

  /** A scan finds the latest lease of those visible by then. */
  lemma ScansFindTheLatest(token: string, h: History, n: nat, found: Option<nat>)
    requires IsWord(token) && InOrder(h) && n <= |h.es| && Finds(token, h, n, found)
    ensures Seen(h, n) <= |L.Visible(h.es)| && found == W.Latest(ScheduleOf(h), Seen(h, n))
  {
    L.TheLastVisibleLeaseIsTheLatest(token, h.es[..n]);
    L.OneIsLatest(
      L.ValidLeases(L.Readings(L.After(token, h.es[..n]).files, token)), found, L.Last(L.Visible(h.es[..n])));
    VisibleSoFar(h.es, n);
  }

  /** So the directory is a schedule such as the watchdog's results are about. */
  lemma TheDirectoryIsASchedule(token: string, h: History, start: int, stall: nat, rounds: seq<W.Round>)
    requires IsWord(token) && InOrder(h) && Scanned(token, h, start, stall, rounds)
    ensures W.Observes(ScheduleOf(h), start, stall, rounds)
  {
    var s := ScheduleOf(h);
    L.PublicationsKeep(token, h.es);
    SeenGrows(h, h.begin, |h.es|);
    forall i | 0 <= i < |rounds|
      ensures W.Grows(s, i) && W.Fits(s, start, stall, rounds[i], s.atScan[i])
    {
      assert ScannedAt(token, h, start, stall, rounds[i], i) && ScansOn(h, i);
      assert i > 0 ==> ScansOn(h, i - 1);
      SeenGrows(h, if i == 0 then h.begin else h.scans[i - 1], h.scans[i]);
      ScansFindTheLatest(token, h, h.scans[i], rounds[i].seen);
    }
  }

  /**
   A tunnel whose heartbeats go out keeps its worker: the watchdog, scanning what the
   tunnel publishes, reports no timeout before the next lease, nor, after the last, within
   the timeout; whatever else is in the directory, and however often it scans.
   */
  lemma HeartbeatsKeepTheWorker(
    token: string, h: History, b: W.Heartbeats, stall: nat, timeout: nat,
    rounds: seq<W.Round>, first: Option<nat>, reason: W.Reason, k: nat)
    requires IsWord(token) && InOrder(h)
    requires Scanned(token, h, b.Start(), stall, rounds) && Finds(token, h, h.begin, first)
    requires W.Watched(timeout, W.Track(first, b.Start()), rounds, reason, k)
    requires b.Spaced() && W.Are(ScheduleOf(h), b)
    requires stall < timeout && b.Within((timeout - 1 - stall) as real)
    requires W.ChecksInTime(ScheduleOf(h), b.Start(), timeout, rounds)
    ensures reason != W.HeartbeatTimeout
  {
    var s := ScheduleOf(h);
    TheDirectoryIsASchedule(token, h, b.Start(), stall, rounds);
    ScansFindTheLatest(token, h, h.begin, first);
    W.HeartbeatsAreSteady(s, b, stall, timeout);
    W.SteadyLeasesRaiseNoAlarm(s, b.Start(), stall, timeout, rounds, reason, k);
  }

  predicate Sorted(times: seq<int>) {
    forall i, j :: 0 <= i <= j < |times| ==> times[i] <= times[j]
  }

  predicate NoneAfter(times: seq<int>, limit: int) {
    forall i :: 0 <= i < |times| ==> times[i] <= limit
  }

  predicate NoneBefore(times: seq<int>, n: nat, start: int) {
    forall i :: n <= i < |times| ==> start <= times[i]
  }

  /** The clock does not go back, and the watchdog began at `start`. */
  predicate Timed(h: History, start: int) {
    Sorted(h.times) && NoneBefore(h.times, h.begin, start)
  }

  lemma {:induction false} MomentsSorted(es: seq<L.Event>, times: seq<int>, limit: int)
    requires |times| == |es| && Sorted(times) && NoneAfter(times, limit)
    ensures Sorted(Moments(es, times)) && NoneAfter(Moments(es, times), limit)
  {
    if es != [] {
      var last := |es| - 1;
      assert NoneAfter(times[..last], times[last]);
      MomentsSorted(es[..last], times[..last], times[last]);
    }
  }

  lemma {:induction false} MomentsSince(es: seq<L.Event>, times: seq<int>, n: nat, start: int)
    requires |times| == |es| && n <= |es| && NoneBefore(times, n, start)
    ensures NoneBefore(Moments(es, times), |L.Visible(es[..n])|, start)
  {
    if n < |es| {
      var last := |es| - 1;
      assert es[..last][..n] == es[..n];
      MomentsSince(es[..last], times[..last], n, start);
    } else {
      assert es[..n] == es;
    }
  }

  lemma TheScheduleIsInOrder(h: History, start: int)
    requires InOrder(h) && Timed(h, start)
    ensures W.InOrder(ScheduleOf(h), start)
  {
    if h.times != [] {
      MomentsSorted(h.es, h.times, h.times[|h.times| - 1]);
    }
    MomentsSince(h.es, h.times, h.begin, start);
    assert Sorted(ScheduleOf(h).at) && NoneBefore(ScheduleOf(h).at, ScheduleOf(h).atStart, start);
  }

  /**
   And a tunnel that is gone loses its worker: once it publishes no more, the watchdog has
   left its loop by the first round that ends the timeout, a period and the stall after
   the last lease became visible, and no later than another period after that.
   */
  lemma AnAbandonedWorkerEnds(
    token: string, h: History, start: int, stall: nat, timeout: nat, period: nat,
    rounds: seq<W.Round>, first: Option<nat>, reason: W.Reason, k: nat, i: nat)
    requires IsWord(token) && InOrder(h) && Timed(h, start)
    requires Scanned(token, h, start, stall, rounds) && Finds(token, h, h.begin, first)
    requires W.Paced(start, period, rounds) && W.Watched(timeout, W.Track(first, start), rounds, reason, k)
    requires i < |rounds| && h.scans[i] == |h.es|
    requires rounds[i].now >= LastLease(h, start) + stall + period + timeout
    ensures reason != W.StillWatching && k <= i
    ensures rounds[k].now <= LastLease(h, start) + stall + timeout + 2 * period
  {
    TheDirectoryIsASchedule(token, h, start, stall, rounds);
    TheScheduleIsInOrder(h, start);
    ScansFindTheLatest(token, h, h.begin, first);
    assert h.es[..|h.es|] == h.es;
    W.TheWatchdogLeavesInTime(ScheduleOf(h), start, stall, timeout, period, rounds, reason, k, i);
  }

  /** When the last lease became visible, or the watchdog began, if that was later. */
  function LastLease(h: History, start: int): int
    requires InOrder(h)
  {
    var s := ScheduleOf(h);
    W.LastAt(s, start, |s.at|)
  }
}
