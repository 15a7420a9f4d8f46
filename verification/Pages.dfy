/** Fenced page preparation and persistence (app/market_data/infrastructure/pages.py). */
module Pages {
  import opened Wrappers
  import opened WorkRows
  import opened Leases
  import Ordering

  /** Stands for the resolved connection, account and credentials of a feed. */
  datatype Access = Access(exchange: string, revision: nat)

  datatype PreparedPage = PreparedPage(
    claim: LeaseClaim, access: Access, start: int, end: int, scanEnd: int, observedAt: int)

  /** `retryAfterMicros` is the delay an exchange asks for, in the unit of all times here. */
  datatype PageFailure = PageFailure(code: string, retryable: bool, retryAfterMicros: nat)

  datatype Amount = Finite(value: real) | NotFinite

  datatype CandlePoint = CandlePoint(
    openTime: int, closeTime: int, open: Amount, high: Amount, low: Amount, close: Amount,
    volume: Option<Amount>, tradeCount: Option<int>, isFinal: bool, zoned: bool)

  const INVALID_CHECKPOINT: Error := AccessError("invalid_checkpoint")
  const INVALID_CANDLES: Error := AccessError("invalid_candles")

  function Min(x: int, y: int): int { if x <= y then x else y }

  function Max(x: int, y: int): int { if x >= y then x else y }

  function TimeframeDelta(timeframe: string): (delta: Option<int>)
    ensures delta.Some? ==> delta.value > 0
  {
    match timeframe
    case "1m" => Some(60 * SECOND)
    case "5m" => Some(300 * SECOND)
    case "15m" => Some(900 * SECOND)
    case "30m" => Some(1800 * SECOND)
    case "1h" => Some(3600 * SECOND)
    case "4h" => Some(14400 * SECOND)
    case "1d" => Some(86400 * SECOND)
    case _ => None
  }

  // ----- which points of a response are kept -----

  /** Opens in the page, is final, and closed before both the end of the page and its observation. */
  predicate Eligible(page: PreparedPage, p: CandlePoint) {
    page.start <= p.openTime < page.end && p.isFinal && p.closeTime <= Min(page.end, page.observedAt)
  }

  predicate Positive(a: Amount) { a.Finite? && a.value > 0.0 }

  predicate Valid(p: CandlePoint) {
    && p.closeTime > p.openTime
    && Positive(p.open) && Positive(p.high) && Positive(p.low) && Positive(p.close)
    && p.low.value <= p.open.value <= p.high.value && p.low.value <= p.close.value <= p.high.value
    && (p.volume.Some? ==> p.volume.value.Finite? && p.volume.value.value >= 0.0)
    && (p.tradeCount.Some? ==> p.tradeCount.value >= 0)
  }

  predicate Agree(page: PreparedPage, p: CandlePoint, q: CandlePoint) {
    Eligible(page, p) && Eligible(page, q) && p.openTime == q.openTime ==> p == q
  }

  /** The response is usable: zoned times throughout, and its eligible candles valid and consistent. */
  predicate Usable(page: PreparedPage, points: seq<CandlePoint>) {
    && (forall i :: 0 <= i < |points| ==> points[i].zoned && (Eligible(page, points[i]) ==> Valid(points[i])))
    && (forall i, j :: 0 <= i < j < |points| ==> Agree(page, points[i], points[j]))
  }

  predicate InOrder(points: seq<CandlePoint>) {
    forall i, j :: 0 <= i < j < |points| ==> points[i].openTime < points[j].openTime
  }

  predicate Contains(points: seq<CandlePoint>, p: CandlePoint) {
    exists i :: 0 <= i < |points| && points[i] == p
  }

  /** The eligible points of a response, each once, by open time. */
  predicate AreFinalPoints(page: PreparedPage, points: seq<CandlePoint>, kept: seq<CandlePoint>) {
    && InOrder(kept)
    && (forall i :: 0 <= i < |kept| ==> Contains(points, kept[i]) && Eligible(page, kept[i]))
    && (forall i :: 0 <= i < |points| && Eligible(page, points[i]) ==> Contains(kept, points[i]))
  }

  /** What the dictionary holds after the first `n` points. */
  ghost predicate Gathered(page: PreparedPage, points: seq<CandlePoint>, n: nat, unique: map<int, CandlePoint>, times: seq<int>)
    requires n <= |points|
  {
    && (forall i :: 0 <= i < n ==> points[i].zoned && (Eligible(page, points[i]) ==>
          Valid(points[i]) && points[i].openTime in unique && unique[points[i].openTime] == points[i]))
    && (forall t :: t in unique ==> unique[t].openTime == t && Eligible(page, unique[t]) && Contains(points, unique[t]))
    && (forall t :: Ordering.Has(times, t) <==> t in unique)
  }

  lemma GatheredIsUsable(page: PreparedPage, points: seq<CandlePoint>, unique: map<int, CandlePoint>, times: seq<int>)
    requires Gathered(page, points, |points|, unique, times)
    ensures Usable(page, points)
  {
  }

  lemma GatherOne(page: PreparedPage, points: seq<CandlePoint>, n: nat, unique: map<int, CandlePoint>, times: seq<int>)
    requires n < |points| && Gathered(page, points, n, unique, times)
    requires points[n].zoned && Eligible(page, points[n]) && Valid(points[n])
    requires points[n].openTime in unique ==> unique[points[n].openTime] == points[n]
    ensures var p := points[n];
            Gathered(page, points, n + 1, unique[p.openTime := p], if p.openTime in unique then times else times + [p.openTime])
  {
    hide Eligible, Valid;
    var p := points[n];
    if p.openTime !in unique {
      var longer := times + [p.openTime];
      assert longer[..|longer| - 1] == times;
      forall t
        ensures Ordering.Has(longer, t) <==> t in unique[p.openTime := p]
      {
        Ordering.HasLast(longer, t);
      }
    }
  }

  lemma ConflictIsUnusable(page: PreparedPage, points: seq<CandlePoint>, n: nat, unique: map<int, CandlePoint>, times: seq<int>)
    requires n < |points| && Gathered(page, points, n, unique, times) && Eligible(page, points[n])
    requires points[n].openTime in unique && unique[points[n].openTime] != points[n]
    ensures !Usable(page, points)
  {
  }

  lemma SortedPointsAreFinal(page: PreparedPage, points: seq<CandlePoint>, unique: map<int, CandlePoint>,
        times: seq<int>, kept: seq<CandlePoint>)
    requires Gathered(page, points, |points|, unique, times)
    requires |kept| == |Ordering.Sorted(times)|
    requires forall i :: 0 <= i < |kept| ==> Ordering.Sorted(times)[i] in unique && kept[i] == unique[Ordering.Sorted(times)[i]]
    ensures AreFinalPoints(page, points, kept)
  {
    hide Eligible, Valid;
    var sorted := Ordering.Sorted(times);
    Ordering.SortedIsSorted(times);
    assert forall i :: 0 <= i < |kept| ==> kept[i].openTime == sorted[i];
    forall i | 0 <= i < |points| && Eligible(page, points[i])
      ensures Contains(kept, points[i])
    {
      var t := points[i].openTime;
      assert Ordering.Has(times, t);
      var j :| 0 <= j < |sorted| && sorted[j] == t;
      assert kept[j] == points[i];
    }
  }

  method FinalPoints(page: PreparedPage, points: seq<CandlePoint>) returns (r: Result<seq<CandlePoint>, Error>)
    ensures r.Ok? <==> Usable(page, points)
    ensures r.Ok? ==> AreFinalPoints(page, points, r.value)
    ensures r.Err? ==> r.error == INVALID_CANDLES
  {
    var unique: map<int, CandlePoint> := map[];
    var times: seq<int> := [];
    var n := 0;
    while n < |points|
      invariant 0 <= n <= |points| && Gathered(page, points, n, unique, times)
    {
      var p := points[n];
      if !p.zoned {
        return Err(INVALID_CANDLES);
      }
      if Eligible(page, p) {
        if p.openTime in unique && unique[p.openTime] != p {
          ConflictIsUnusable(page, points, n, unique, times);
          return Err(INVALID_CANDLES);
        }
        if !Valid(p) {
          return Err(INVALID_CANDLES);
        }
        GatherOne(page, points, n, unique, times);
        if p.openTime !in unique {
          times := times + [p.openTime];
        }
        unique := unique[p.openTime := p];
      }
      n := n + 1;
    }
    GatheredIsUsable(page, points, unique, times);
    Ordering.SortedIsSorted(times);
    var sorted := Ordering.Sorted(times);
    var kept := [];
    while |kept| < |sorted|
      invariant |kept| <= |sorted|
      invariant forall i :: 0 <= i < |kept| ==> sorted[i] in unique && kept[i] == unique[sorted[i]]
    {
      assert Ordering.Has(sorted, sorted[|kept|]);
      kept := kept + [unique[sorted[|kept|]]];
    }
    SortedPointsAreFinal(page, points, unique, times, kept);
    return Ok(kept);
  }

  // ----- what each transaction does to the tables -----

  function PageSize(chosen: Option<nat>, exchange: string): nat {
    if chosen.Some? then chosen.value else if exchange == "oanda" then 4900 else 950
  }

  /** A subscription without a checkpoint starts a scan up to now, from the newest stored candle. */
  function Scanning(t: Target, latest: Option<int>, delta: int, now: int): Target {
    if t.SubscriptionRow? && t.scanTo.None? && t.nextFetchAt.None? then
      t.(scanTo := Some(now), nextFetchAt := Some(if latest.Some? then Min(latest.value, now) else now - 2 * delta))
    else t
  }

  /** Where the target continues, and where its scan ends. */
  function Checkpoint(t: Target): Result<(int, int), Error> {
    match t
    case SubscriptionRow(_, next, _, _, _, _, _, scanTo, _, _, _) =>
      if next.None? || scanTo.None? then Err(INVALID_CHECKPOINT) else Ok((next.value, scanTo.value))
    case BackfillRow(_, next, _, _, from, to, _, _, _, _, _) =>
      var start := if next.Some? then next.value else from;
      if from <= start <= to then Ok((start, to)) else Err(INVALID_CHECKPOINT)
  }

  /** Whether the page reaches one bar back over what was fetched before. */
  predicate Overlaps(before: Target, latest: Option<int>, start: int, scanEnd: int) {
    match before
    case SubscriptionRow(_, next, _, _, _, _, _, scanTo, _, _, _) => if scanTo.None? && next.None? then latest.Some? else true
    case BackfillRow(_, _, _, _, from, _, _, _, _, _, _) => from < start < scanEnd
  }

  function RequestStart(before: Target, latest: Option<int>, start: int, scanEnd: int, delta: int): int {
    if !Overlaps(before, latest, start, scanEnd) then start
    else if before.BackfillRow? then Max(start - delta, before.fromTime)
    else start - delta
  }

  /** The page for a target as it was read, in the middle of a guarded write. */
  function PageFor(t: Target, claim: LeaseClaim, access: Access, latest: Option<int>, delta: int, chosen: Option<nat>, now: int)
    : Result<PreparedPage, Error>
  {
    var scanning := Scanning(t, latest, delta, now);
    var checkpoint :- Checkpoint(scanning);
    var start := RequestStart(t, latest, checkpoint.0, checkpoint.1, delta);
    Ok(PreparedPage(claim.(nextFetchAt := scanning.nextFetchAt), access, start,
                    Min(checkpoint.1, start + PageSize(chosen, access.exchange) * delta), checkpoint.1, now))
  }

  /** `resolved` is the access found in this transaction, `latest` the close of the newest stored
      final candle; `check` and `now` are its two readings of the clock. */
  function Prepare(db: Db, claim: LeaseClaim, resolved: Result<Access, Error>, latest: Option<int>,
        chosen: Option<nat>, check: int, now: int)
    : Result<(Db, PreparedPage), Error>
  {
    var t :- Guarded(db, claim, check);
    var access :- resolved;
    var delta := TimeframeDelta(claim.work.feed.timeframe);
    if delta.None? then Err(UnsupportedTimeframe)
    else
      var page :- PageFor(t, claim, access, latest, delta.value, chosen, now);
      Ok((Commit(db, claim, Scanning(t, latest, delta.value, now), false), page))
  }

  /** The guarded write of a prepared page, with the access resolved again. */
  function Rechecked(db: Db, page: PreparedPage, resolved: Result<Access, Error>, check: int): Result<Target, Error> {
    var t :- Guarded(db, page.claim, check);
    var access :- resolved;
    if access != page.access then Err(AccessError("access_changed")) else Ok(t)
  }

  function Saved(t: Target, page: PreparedPage, now: int): Target {
    match t
    case BackfillRow(_, _, _, _, _, _, _, _, _, _, _) =>
      t.(nextFetchAt := Some(page.end), failures := 0, nextRunAt := now, errorCode := None)
    case SubscriptionRow(_, _, _, _, _, poll, _, _, _, _, _) =>
      var polled := t.(failures := 0, lastPolledAt := Some(now), lastErrorCode := None);
      if page.end == page.scanEnd then
        polled.(nextFetchAt := None, scanTo := None, lastSuccessAt := Some(now), nextRunAt := now + poll * SECOND)
      else polled.(nextFetchAt := Some(page.end), nextRunAt := now)
  }

  function Save(db: Db, page: PreparedPage, points: seq<CandlePoint>, resolved: Result<Access, Error>, check: int,
        now: int): Result<Db, Error> {
    if !Usable(page, points) then Err(INVALID_CANDLES)
    else
      var t :- Rechecked(db, page, resolved, check);
      Ok(Commit(db, page.claim, Saved(t, page, now), true))
  }

  function Complete(db: Db, page: PreparedPage, resolved: Result<Access, Error>, check: int, now: int): Result<Db, Error> {
    var t :- Rechecked(db, page, resolved, check);
    if !t.BackfillRow? then Err(INVALID_CHECKPOINT)
    else Ok(Commit(db, page.claim, t.(status := Succeeded, errorCode := None, failures := 0, finishedAt := Some(now)), true))
  }

  function FailedOnce(t: Target, failure: PageFailure, id: nat, now: int): Target {
    var failures := t.failures + 1;
    var retry := failure.retryable && failures < 3;
    var later := now + RetryDelay(failures, failure.retryAfterMicros, id);
    match t
    case BackfillRow(_, _, _, _, _, _, _, _, _, _, _) =>
      t.(failures := failures, nextRunAt := later, errorCode := Some(failure.code),
         status := if retry then Queued else Failed, finishedAt := if retry then None else Some(now))
    case SubscriptionRow(_, _, _, _, _, _, _, _, _, _, _) =>
      t.(failures := failures, nextRunAt := later, lastErrorCode := Some(failure.code), lastPolledAt := Some(now),
         blockedReason := if retry then t.blockedReason else Some(failure.code))
  }

  function Fail(db: Db, claim: LeaseClaim, failure: PageFailure, check: int, now: int): Result<Db, Error> {
    var t :- Guarded(db, claim, check);
    Ok(Commit(db, claim, FailedOnce(t, failure, claim.work.row.id, now), true))
  }

  // ----- the store -----

  class PageStore {
    const leases: LeaseStore
    const pageSize: Option<nat>

    constructor (store: LeaseStore, chosen: Option<nat>)
      requires chosen.Some? ==> 2 <= chosen.value <= 950
      ensures leases == store && pageSize == chosen
    {
      leases, pageSize := store, chosen;
    }

    method PreparePage(claim: LeaseClaim, resolved: Result<Access, Error>, latest: Option<int>, check: int, now: int)
      returns (r: Result<PreparedPage, Error>)
      modifies leases
      ensures match Prepare(old(leases.Tables()), claim, resolved, latest, pageSize, check, now)
              case Ok(done) => leases.Tables() == done.0 && r == Ok(done.1)
              case Err(e) => leases.Tables() == old(leases.Tables()) && r == Err(e)
    {
      var target :- leases.Begin(claim, check);
      var access :- resolved;
      var delta := TimeframeDelta(claim.work.feed.timeframe);
      if delta.None? {
        return Err(UnsupportedTimeframe);
      }
      var overlap := true;
      var start, scanEnd := 0, 0;
      var t := target;
      if t.SubscriptionRow? {
        if t.scanTo.None? && t.nextFetchAt.None? {
          t := t.(scanTo := Some(now), nextFetchAt := Some(if latest.Some? then Min(latest.value,
                now) else now - 2 * delta.value));
          overlap := latest.Some?;
        }
        if t.scanTo.None? || t.nextFetchAt.None? {
          return Err(INVALID_CHECKPOINT);
        }
        start, scanEnd := t.nextFetchAt.value, t.scanTo.value;
      } else {
        start := if t.nextFetchAt.Some? then t.nextFetchAt.value else t.fromTime;
        scanEnd := t.toTime;
        if !(t.fromTime <= start <= scanEnd) {
          return Err(INVALID_CHECKPOINT);
        }
      }
      var updated := claim.(nextFetchAt := t.nextFetchAt);
      var size := PageSize(pageSize, access.exchange);
      var requestStart := start;
      if t.BackfillRow? {
        overlap := t.fromTime < start < scanEnd;
      }
      if overlap {
        requestStart := requestStart - delta.value;
        if t.BackfillRow? {
          requestStart := Max(requestStart, t.fromTime);
        }
      }
      var end := Min(scanEnd, requestStart + size * delta.value);
      leases.End(claim, t, false);
      return Ok(PreparedPage(updated, access, requestStart, end, scanEnd, now));
    }

    method Recheck(page: PreparedPage, resolved: Result<Access, Error>, check: int) returns (r: Result<Target, Error>)
      ensures r == Rechecked(leases.Tables(), page, resolved, check)
    {
      var target :- leases.Begin(page.claim, check);
      var access :- resolved;
      if access != page.access {
        return Err(AccessError("access_changed"));
      }
      return Ok(target);
    }

    method SavePage(page: PreparedPage, points: seq<CandlePoint>, resolved: Result<Access, Error>, check: int, now: int)
      returns (r: Result<seq<CandlePoint>, Error>)
      modifies leases
      ensures match Save(old(leases.Tables()), page, points, resolved, check, now)
              case Ok(db) => leases.Tables() == db && r.Ok? && AreFinalPoints(page, points, r.value)
              case Err(e) => leases.Tables() == old(leases.Tables()) && r == Err(e)
    {
      var accepted :- FinalPoints(page, points);
      var target :- Recheck(page, resolved, check);
      var t := target.(nextFetchAt := Some(page.end), failures := 0, nextRunAt := now);
      if t.BackfillRow? {
        t := t.(errorCode := None);
      } else {
        t := t.(lastPolledAt := Some(now), lastErrorCode := None);
        if page.end == page.scanEnd {
          t := t.(nextFetchAt := None, scanTo := None, lastSuccessAt := Some(now), nextRunAt := now + t.pollSeconds * SECOND);
        }
      }
      leases.End(page.claim, t, true);
      return Ok(accepted);
    }

    method CompleteJob(page: PreparedPage, resolved: Result<Access, Error>, check: int,
          now: int) returns (failed: Option<Error>)
      modifies leases
      ensures match Complete(old(leases.Tables()), page, resolved, check, now)
              case Ok(db) => leases.Tables() == db && failed == None
              case Err(e) => leases.Tables() == old(leases.Tables()) && failed == Some(e)
    {
      var r := Recheck(page, resolved, check);
      if r.Err? {
        return Some(r.error);
      }
      if !r.value.BackfillRow? {
        return Some(INVALID_CHECKPOINT);
      }
      leases.End(page.claim, r.value.(status := Succeeded, errorCode := None, failures := 0, finishedAt := Some(now)), true);
      return None;
    }

    method FailPage(claim: LeaseClaim, failure: PageFailure, check: int, now: int) returns (failed: Option<Error>)
      modifies leases
      ensures match Fail(old(leases.Tables()), claim, failure, check, now)
              case Ok(db) => leases.Tables() == db && failed == None
              case Err(e) => leases.Tables() == old(leases.Tables()) && failed == Some(e)
    {
      var r := leases.Begin(claim, check);
      if r.Err? {
        return Some(r.error);
      }
      var t := r.value.(failures := r.value.failures + 1);
      var retry := failure.retryable && t.failures < 3;
      t := t.(nextRunAt := now + RetryDelay(t.failures, failure.retryAfterMicros, claim.work.row.id));
      if t.BackfillRow? {
        t := t.(errorCode := Some(failure.code), status := if retry then Queued else Failed,
                finishedAt := if retry then None else Some(now));
      } else {
        t := t.(lastErrorCode := Some(failure.code), lastPolledAt := Some(now));
        if !retry {
          t := t.(blockedReason := Some(failure.code));
        }
      }
      leases.End(claim, t, true);
      return None;
    }
  }
}
