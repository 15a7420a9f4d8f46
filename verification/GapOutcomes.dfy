/** What a reconciliation does to each recorded gap, read off the candles, the range and the scan. */
module GapOutcomes {
  import opened Wrappers
  import opened Ordering
  import opened Coverage
  import opened GapStore
  import opened GapRuns
  import opened GapHistories

  /** A live row that overlaps the requested range. */
  predicate Loaded(row: GapRow, rq: Request) {
    row.status != Resolved && row.fromTime < rq.requestedTo && rq.requestedFrom < row.toTime
  }

  predicate FoundAgain(row: GapRow, gaps: seq<GapWindow>) {
    exists g :: 0 <= g < |gaps| && gaps[g].fromTime == row.fromTime && gaps[g].toTime == row.toTime
  }

  predicate Replaced(row: GapRow, gaps: seq<GapWindow>) {
    exists g :: 0 <= g < |gaps| && gaps[g].fromTime < row.toTime && row.fromTime < gaps[g].toTime
  }

  /** The bars a row expects: from its start, in open market hours, before its end. */
  ghost predicate Expects(row: GapRow, rq: Request, t: int) {
    OnGrid(row.fromTime, rq.delta, t) && t < row.toTime && rq.open(t)
  }

  ghost predicate StoredInRange(rq: Request, t: int) { Has(rq.candles, t) && rq.requestedFrom <= t < rq.requestedTo }

  ghost predicate Filled(row: GapRow, rq: Request) {
    && (exists t :: Expects(row, rq, t))
    && (forall t :: Expects(row, rq, t) ==> StoredInRange(rq, t))
  }

  /** Why a run closes a row: its window is not missing any more, and it was replaced or filled. */
  ghost predicate Stale(row: GapRow, rq: Request)
    requires rq.delta > 0
  {
    Loaded(row, rq) && !FoundAgain(row, Scan(rq)) && (Replaced(row, Scan(rq)) || Filled(row, rq))
  }

  ghost predicate Counts(row: GapRow, gaps: seq<GapWindow>, after: GapRow) {
    exists g :: && 0 <= g < |gaps| && gaps[g].fromTime == row.fromTime && gaps[g].toTime == row.toTime
                && after.expectedCount == gaps[g].expectedCount && after.missingCount == gaps[g].missingCount
  }

  /** A row after a run: closed exactly if it is stale, at the time of the run; otherwise as it was,
      but for the counts of a gap found again. */
  ghost predicate Follows(row: GapRow, rq: Request, after: GapRow)
    requires rq.delta > 0
  {
    && after.fromTime == row.fromTime && after.toTime == row.toTime
    && after.status == (if Stale(row, rq) then Resolved else row.status)
    && after.resolvedAt == (if Stale(row, rq) then Some(rq.now) else row.resolvedAt)
    && (if Loaded(row, rq) && FoundAgain(row, Scan(rq)) then Counts(row, Scan(rq), after)
        else after.expectedCount == row.expectedCount && after.missingCount == row.missingCount)
  }

  lemma FilledIsFilled(row: GapRow, rq: Request)
    requires rq.delta > 0
    ensures IsFilled(row, rq) <==> Filled(row, rq)
  {
    FilledMeansEveryExpectedSlotIsStored(row, rq);
    hide OnGrid, Has, IsFilled;
    forall t
      ensures Has(StoredTimes(rq), t) <==> StoredInRange(rq, t)
    {
      WithinBounds(rq.candles, rq.requestedFrom, rq.requestedTo, t);
    }
    if Filled(row, rq) {
      var t :| Expects(row, rq, t);
      assert SomeSlotExpected(row.fromTime, row.toTime, rq.delta, rq.open);
    }
    if SomeSlotExpected(row.fromTime, row.toTime, rq.delta, rq.open) {
      var t :| OnGrid(row.fromTime, rq.delta, t) && t < row.toTime && rq.open(t);
      assert Expects(row, rq, t);
    }
  }

  /** What one run does to a row of any table with distinct keys. */
  lemma RunSettlesRow(rows: seq<GapRow>, rq: Request, i: nat)
    requires rq.delta > 0 && DistinctKeys(rows) && i < |rows|
    ensures i < |Reconciled(rows, rq, Scan(rq))| && Follows(rows[i], rq, Reconciled(rows, rq, Scan(rq))[i])
  {
    var (row, gaps) := (rows[i], Scan(rq));
    FilledIsFilled(row, rq);
    FindGapFinds(gaps, RowKey(row), |gaps|);
    if Loaded(row, rq) {
      DistinctRowsAreChosen(rows, rq, i);
    }
    hide Filled, IsFilled, Scan, FindGap, FindRow;
  }

  /** The rows a run adds are open rows of the gaps no loaded row has the window of. */
  lemma AddedRowsAreOpen(rows: seq<GapRow>, rq: Request, i: nat) returns (g: nat)
    requires rq.delta > 0 && |rows| <= i < |Reconciled(rows, rq, Scan(rq))|
    ensures g < |Scan(rq)|
    ensures var gap := Scan(rq)[g];
            && Reconciled(rows, rq, Scan(rq))[i] ==
               GapRow(gap.fromTime, gap.toTime, gap.expectedCount, gap.missingCount, Open, None)
            && forall j :: 0 <= j < |rows| && Loaded(rows[j], rq) ==>
                 rows[j].fromTime != gap.fromTime || rows[j].toTime != gap.toTime
  {
    var gaps := Scan(rq);
    var added := Added(rows, rq, gaps, |gaps|);
    AddedAreNew(rows, rq, gaps, |gaps|);
    assert AddedFor(added[i - |rows|], rows, rq, gaps, |gaps|);
    g :| 0 <= g < |gaps| && added[i - |rows|] == NewRow(gaps[g]) && FindRow(rows, rq, GapKey(gaps[g]), |rows|).None?;
    FindRowFinds(rows, rq, GapKey(gaps[g]), |rows|);
  }

  /** Over any history: whenever a row is found resolved, some run resolved it, and at that run it was
      replaced or filled. */
  lemma {:induction false} ResolvedForAReason(events: seq<Event>, i: nat) returns (k: nat)
    requires forall j :: 0 <= j < |events| ==> Sound(events[j])
    requires i < |ApplyAll(events)| && ApplyAll(events)[i].status == Resolved
    ensures k < |events| && events[k].Run?
    ensures var (before, rq) := (ApplyAll(events[..k]), events[k].rq);
            && i < |before| && Stale(before[i], rq)
            && before[i].fromTime == ApplyAll(events)[i].fromTime && before[i].toTime == ApplyAll(events)[i].toTime
            && ApplyAll(events)[i].resolvedAt == Some(rq.now)
  {
    hide Stale, Scan, Reconciled;
    var n := |events| - 1;
    var (front, e) := (events[..n], events[n]);
    var rows := ApplyAll(front);
    KeysStayDistinct(front);
    if e.Run? && i >= |rows| {
      var g := AddedRowsAreOpen(rows, e.rq, i);
    } else if e.Run? && Stale(rows[i], e.rq) {
      RunSettlesRow(rows, e.rq, i);
      k := n;
    } else {
      if e.Run? {
        RunSettlesRow(rows, e.rq, i);
      }
      k := ResolvedForAReason(front, i);
      assert front[..k] == events[..k];
    }
  }
}
