/**
 * Progress reporting inside the upload loop.  After part `n` is recorded,
 * a report is attempted when at least three seconds have passed since the
 * last report that was actually delivered, or when `n` is the final part.
 * The time of the last delivered report moves only when the message edit
 * succeeds.  Time is in integer milliseconds; the clock reading after part
 * `n` and whether the edit for part `n` succeeds are given functions.
 */
module Progress {
  import opened Partition

  /** `current_time - last_update_time >= 3` seconds. */
  const ReportIntervalMs: int := 3000

  /** One attempted progress report: the part, the clamped byte count shown, whether the edit succeeded. */
  datatype Report = Report(partNumber: nat, uploadedBytes: nat, delivered: bool)

  /** The reports attempted so far and `last_update_time`. */
  datatype Throttle = Throttle(reports: seq<Report>, lastUpdate: int)

  /** The throttle test of the upload loop. */
  predicate ShouldReport(now: int, lastUpdate: int, partNumber: nat, totalParts: nat) {
    now - lastUpdate >= ReportIntervalMs || partNumber == totalParts
  }

  /** The throttle after parts 1..n, starting from `last_update_time = start`. */
  function ThrottleRun(size: nat, chunk: nat, total: nat, clock: nat -> int, editOk: nat -> bool,
                       start: int, n: nat): Throttle
  {
    if n == 0 then Throttle([], start)
    else
      var prev := ThrottleRun(size, chunk, total, clock, editOk, start, n - 1);
      if ShouldReport(clock(n), prev.lastUpdate, n, total) then
        Throttle(prev.reports + [Report(n, UploadedBytes(n, chunk, size), editOk(n))],
                 if editOk(n) then clock(n) else prev.lastUpdate)
      else
        prev
  }

  /** Part `k` has a report in `reports`. */
  predicate Reported(reports: seq<Report>, k: nat) {
    exists i :: 0 <= i < |reports| && reports[i].partNumber == k
  }

  /** The time of the last delivered report, or `start` if none was delivered. */
  function LastDeliveredTime(reports: seq<Report>, start: int, clock: nat -> int): int {
    if reports == [] then start
    else if reports[|reports| - 1].delivered then clock(reports[|reports| - 1].partNumber)
    else LastDeliveredTime(reports[..|reports| - 1], start, clock)
  }

  /**
   * Every report is about a part in 1..n, parts appear in increasing order,
   * the byte count shown is `min(part * chunk, size)` and never above the
   * file size, and `delivered` is whether that edit succeeded.
   */
  predicate WellFormedReports(rs: seq<Report>, n: nat, chunk: nat, size: nat, editOk: nat -> bool) {
    && (forall i :: 0 <= i < |rs| ==>
          && 1 <= rs[i].partNumber <= n
          && rs[i].uploadedBytes == UploadedBytes(rs[i].partNumber, chunk, size) <= size
          && rs[i].delivered == editOk(rs[i].partNumber))
    && (forall i, j :: 0 <= i < j < |rs| ==> rs[i].partNumber < rs[j].partNumber)
  }

  lemma {:induction false} ThrottleReportsWellFormed(size: nat, chunk: nat, total: nat, clock: nat -> int,
                                                     editOk: nat -> bool, start: int, n: nat)
    ensures WellFormedReports(ThrottleRun(size, chunk, total, clock, editOk, start, n).reports, n, chunk, size, editOk)
  {
    if n > 0 {
      var prev := ThrottleRun(size, chunk, total, clock, editOk, start, n - 1).reports;
      var rs := ThrottleRun(size, chunk, total, clock, editOk, start, n).reports;
      ThrottleReportsWellFormed(size, chunk, total, clock, editOk, start, n - 1);
      var last := ThrottleRun(size, chunk, total, clock, editOk, start, n - 1).lastUpdate;
      if ShouldReport(clock(n), last, n, total) {
        assert rs == prev + [Report(n, UploadedBytes(n, chunk, size), editOk(n))];
      } else {
        assert rs == prev;
      }
    }
  }

  /** `last_update_time` is always the time of the last delivered report (or the start time). */
  lemma {:induction false} LastUpdateIsLastDelivered(size: nat, chunk: nat, total: nat, clock: nat -> int,
                                                     editOk: nat -> bool, start: int, n: nat)
    ensures var t := ThrottleRun(size, chunk, total, clock, editOk, start, n);
      t.lastUpdate == LastDeliveredTime(t.reports, start, clock)
  {
    if n > 0 {
      var prev := ThrottleRun(size, chunk, total, clock, editOk, start, n - 1);
      LastUpdateIsLastDelivered(size, chunk, total, clock, editOk, start, n - 1);
      var rs := prev.reports + [Report(n, UploadedBytes(n, chunk, size), editOk(n))];
      assert rs[..|rs| - 1] == prev.reports;
    }
  }

  /** Running further only appends reports about later parts. */
  lemma {:induction false} ThrottlePrefix(size: nat, chunk: nat, total: nat, clock: nat -> int,
                                          editOk: nat -> bool, start: int, k: nat, n: nat)
    requires k <= n
    ensures var early := ThrottleRun(size, chunk, total, clock, editOk, start, k).reports;
      var late := ThrottleRun(size, chunk, total, clock, editOk, start, n).reports;
      && |early| <= |late|
      && late[..|early|] == early
      && forall i :: |early| <= i < |late| ==> late[i].partNumber > k
  {
    if k < n {
      ThrottlePrefix(size, chunk, total, clock, editOk, start, k, n - 1);
    }
  }

  /** Part `k` is reported in the first `n` parts exactly when it is reported by the time it is recorded. */
  lemma ReportedOnlyWhenRecorded(size: nat, chunk: nat, total: nat, clock: nat -> int,
                                 editOk: nat -> bool, start: int, n: nat, k: nat)
    requires 1 <= k <= n
    ensures Reported(ThrottleRun(size, chunk, total, clock, editOk, start, n).reports, k)
        <==> Reported(ThrottleRun(size, chunk, total, clock, editOk, start, k).reports, k)
  {
    var upTo := ThrottleRun(size, chunk, total, clock, editOk, start, k).reports;
    var all := ThrottleRun(size, chunk, total, clock, editOk, start, n).reports;
    ThrottlePrefix(size, chunk, total, clock, editOk, start, k, n);
    if Reported(all, k) {
      var i :| 0 <= i < |all| && all[i].partNumber == k;
      assert upTo[i] == all[i];
    }
    if Reported(upTo, k) {
      var i :| 0 <= i < |upTo| && upTo[i].partNumber == k;
      assert all[i] == upTo[i];
    }
  }

  /** Part `k` is reported by its own step exactly when the throttle test passes there. */
  lemma ReportedAtOwnStep(size: nat, chunk: nat, total: nat, clock: nat -> int,
                          editOk: nat -> bool, start: int, k: nat)
    requires k >= 1
    ensures Reported(ThrottleRun(size, chunk, total, clock, editOk, start, k).reports, k)
        <==> ShouldReport(clock(k), ThrottleRun(size, chunk, total, clock, editOk, start, k - 1).lastUpdate, k, total)
  {
    var prev := ThrottleRun(size, chunk, total, clock, editOk, start, k - 1);
    var upTo := ThrottleRun(size, chunk, total, clock, editOk, start, k).reports;
    ThrottleReportsWellFormed(size, chunk, total, clock, editOk, start, k - 1);
    if ShouldReport(clock(k), prev.lastUpdate, k, total) {
      assert upTo[|upTo| - 1].partNumber == k;
    }
  }

  /**
   * Part `k` (of the first `n`) is reported exactly when three seconds have
   * passed since the last delivered report before it, or `k` is the final part.
   */
  lemma ThrottleDecision(size: nat, chunk: nat, total: nat, clock: nat -> int,
                         editOk: nat -> bool, start: int, n: nat, k: nat)
    requires 1 <= k <= n
    ensures Reported(ThrottleRun(size, chunk, total, clock, editOk, start, n).reports, k)
        <==> ShouldReport(clock(k),
                          LastDeliveredTime(ThrottleRun(size, chunk, total, clock, editOk, start, k - 1).reports,
                                            start, clock),
                          k, total)
  {
    ReportedOnlyWhenRecorded(size, chunk, total, clock, editOk, start, n, k);
    ReportedAtOwnStep(size, chunk, total, clock, editOk, start, k);
    LastUpdateIsLastDelivered(size, chunk, total, clock, editOk, start, k - 1);
  }

  /** When the run reaches the final part, the final part is always reported. */
  lemma FinalPartReported(size: nat, chunk: nat, total: nat, clock: nat -> int,
                          editOk: nat -> bool, start: int)
    requires total >= 1
    ensures var rs := ThrottleRun(size, chunk, total, clock, editOk, start, total).reports;
      |rs| >= 1 && rs[|rs| - 1].partNumber == total
  {
  }

  /** Clock readings of a five-part example: 0, 1, 2, 3.5 and 4 seconds. */
  function ExampleClock(n: nat): int {
    if n <= 1 then 0 else if n == 2 then 1000 else if n == 3 then 2000 else if n == 4 then 3500 else 4000
  }

  function EveryEditSucceeds(n: nat): bool {
    true
  }

  /**
   * Parts at 0, 1, 2, 3.5 and 4 seconds of a five-part upload started at
   * time 0, every edit succeeding: reports for part 4 (3.5 s since the
   * start) and part 5 (the final part), none for parts 1 to 3.
   */
  lemma FivePartExample(size: nat, chunk: nat)
    ensures var rs := ThrottleRun(size, chunk, 5, ExampleClock, EveryEditSucceeds, 0, 5).reports;
      |rs| == 2 && rs[0].partNumber == 4 && rs[1].partNumber == 5
  {
    assert ThrottleRun(size, chunk, 5, ExampleClock, EveryEditSucceeds, 0, 1) == Throttle([], 0);
    assert ThrottleRun(size, chunk, 5, ExampleClock, EveryEditSucceeds, 0, 2) == Throttle([], 0);
    assert ThrottleRun(size, chunk, 5, ExampleClock, EveryEditSucceeds, 0, 3) == Throttle([], 0);
    assert ThrottleRun(size, chunk, 5, ExampleClock, EveryEditSucceeds, 0, 4).lastUpdate == 3500;
  }
}
