/**
 * The daily overdue job (backend/services/scheduler.js): for every borrower with a due date,
 * recompute the days overdue on `today` and write `overdueDays` and `isOverdue` back only when
 * one of them differs, counting the writes.
 *
 * Dates are day numbers. Both dates are set to local midnight before they are subtracted, so
 * the floor of the millisecond difference divided by one day is the difference of the day numbers.
 * The borrowers collection is an array that the job updates in place.
 */
module Scheduler {
  import opened Wrappers
  import opened Schema

  /** Days past due on `today` for a due date, never negative. */
  function OverdueDays(due: int, today: int): (d: nat)
    ensures d > 0 <==> today > due
    ensures d > 0 ==> d == today - due
  {
    if today - due > 0 then today - due else 0
  }

  /** The values the job computes for a borrower with a due date. */
  predicate IsCurrent(b: BorrowerRecord, today: int)
    requires b.dueDate.Some?
  {
    b.overdueDays == OverdueDays(b.dueDate.value, today) && b.isOverdue == (today > b.dueDate.value)
  }

  /** Whether the job writes this borrower. */
  predicate NeedsUpdate(b: BorrowerRecord, today: int) {
    b.dueDate.Some? && !IsCurrent(b, today)
  }

  /** A borrower as the job leaves it: only the two overdue fields change, and only with a due date. */
  function Refreshed(b: BorrowerRecord, today: int): (r: BorrowerRecord)
    ensures !NeedsUpdate(b, today) <==> r == b
    ensures r.dueDate == b.dueDate
    ensures b.dueDate.Some? ==> IsCurrent(r, today) && (r.isOverdue <==> r.overdueDays > 0)
  {
    if NeedsUpdate(b, today) then
      var due := b.dueDate.value;
      b.(overdueDays := OverdueDays(due, today), isOverdue := today > due)
    else b
  }

  /** The job writes only `overdueDays` and `isOverdue`; every other field is kept. */
  lemma RefreshedKeepsOtherFields(b: BorrowerRecord, today: int)
    ensures var r := Refreshed(b, today); r == b.(overdueDays := r.overdueDays, isOverdue := r.isOverdue)
  {
  }

  /** The collection after the job. */
  function DailyUpdate(bs: seq<BorrowerRecord>, today: int): (r: seq<BorrowerRecord>)
    ensures |r| == |bs|
    ensures forall i | 0 <= i < |bs| :: r[i] == Refreshed(bs[i], today)
  {
    seq(|bs|, i requires 0 <= i < |bs| => Refreshed(bs[i], today))
  }

  /** How many borrowers the job writes. */
  function CountChanged(bs: seq<BorrowerRecord>, today: int): (n: nat)
    ensures n <= |bs|
  {
    if bs == [] then 0
    else CountChanged(bs[..|bs| - 1], today) + (if NeedsUpdate(bs[|bs| - 1], today) then 1 else 0)
  }

  /** The count is zero exactly when no borrower needs a write. */
  lemma {:induction false} CountZeroIffNoneStale(bs: seq<BorrowerRecord>, today: int)
    ensures CountChanged(bs, today) == 0 <==> forall i | 0 <= i < |bs| :: !NeedsUpdate(bs[i], today)
  {
    if bs != [] {
      var init := bs[..|bs| - 1];
      CountZeroIffNoneStale(init, today);
      assert forall i | 0 <= i < |init| :: init[i] == bs[i];
    }
  }

  /**
   * `performDailyUpdate()` (the cron callback of `initScheduler` runs the same loop): each borrower
   * that needs it is rewritten in place, and the number of rewrites is returned.
   */
  method PerformDailyUpdate(borrowers: array<BorrowerRecord>, today: int) returns (updatedCount: nat)
    modifies borrowers
    ensures borrowers[..] == DailyUpdate(old(borrowers[..]), today)
    ensures updatedCount == CountChanged(old(borrowers[..]), today)
  {
    updatedCount := 0;
    ghost var before := borrowers[..];
    for i := 0 to borrowers.Length
      invariant forall j | 0 <= j < i :: borrowers[j] == Refreshed(before[j], today)
      invariant forall j | i <= j < borrowers.Length :: borrowers[j] == before[j]
      invariant updatedCount == CountChanged(before[..i], today)
    {
      assert before[..i + 1][..i] == before[..i];
      var borrower := borrowers[i];
      if borrower.dueDate.None? {
        continue;
      }
      var due := borrower.dueDate.value;
      var diffDays := today - due;
      var newOverdueDays := if diffDays > 0 then diffDays else 0;
      var newIsOverdue := diffDays > 0;
      if borrower.overdueDays != newOverdueDays || borrower.isOverdue != newIsOverdue {
        borrowers[i] := borrower.(overdueDays := newOverdueDays, isOverdue := newIsOverdue);
        updatedCount := updatedCount + 1;
      }
    }
    assert before[..borrowers.Length] == before;
  }

  /** Running the job twice on the same day changes nothing the second time and writes nothing. */
  lemma DailyUpdateIdempotent(bs: seq<BorrowerRecord>, today: int)
    ensures DailyUpdate(DailyUpdate(bs, today), today) == DailyUpdate(bs, today)
    ensures CountChanged(DailyUpdate(bs, today), today) == 0
  {
    var once := DailyUpdate(bs, today);
    forall i | 0 <= i < |once|
      ensures !NeedsUpdate(once[i], today)
    {
      assert once[i] == Refreshed(bs[i], today);
    }
    CountZeroIffNoneStale(once, today);
  }

  /** The job reports zero writes exactly when it leaves the collection as it was. */
  lemma NoWritesIffUnchanged(bs: seq<BorrowerRecord>, today: int)
    ensures CountChanged(bs, today) == 0 <==> DailyUpdate(bs, today) == bs
  {
    CountZeroIffNoneStale(bs, today);
    if DailyUpdate(bs, today) == bs {
      forall i | 0 <= i < |bs|
        ensures !NeedsUpdate(bs[i], today)
      {
        assert DailyUpdate(bs, today)[i] == bs[i];
      }
    }
  }
}
