/** The rows market-data workers share (app/market_data/infrastructure/models.py): one lease per
    feed, and the backfill jobs and subscriptions the leases are taken for. Times are microseconds. */
module WorkRows {
  import opened Wrappers

  datatype FeedKey = FeedKey(workspaceId: nat, instrumentId: nat, timeframe: string)
  datatype WorkKind = Backfill | Polling

  /** A row of one of the two work tables. */
  datatype RowId = RowId(kind: WorkKind, id: nat)
  datatype WorkRef = WorkRef(feed: FeedKey, row: RowId)
  datatype LeaseClaim = LeaseClaim(work: WorkRef, owner: nat, token: nat, nextFetchAt: Option<int>)

  datatype Lease = Lease(
    owner: Option<nat>, token: Option<nat>, until: Option<int>, heartbeatAt: Option<int>,
    kind: Option<WorkKind>, workId: Option<nat>)

  const FREE: Lease := Lease(None, None, None, None, None, None)

  datatype Status = Queued | Running | Validating | Succeeded | Failed

  datatype Target =
    | BackfillRow(
        feed: FeedKey, nextFetchAt: Option<int>, nextRunAt: int, failures: nat,
        fromTime: int, toTime: int, status: Status, attempts: nat, errorCode: Option<string>,
        startedAt: Option<int>, finishedAt: Option<int>)
    | SubscriptionRow(
        feed: FeedKey, nextFetchAt: Option<int>, nextRunAt: int, failures: nat,
        enabled: bool, pollSeconds: nat, blockedReason: Option<string>, scanTo: Option<int>,
        lastErrorCode: Option<string>, lastPolledAt: Option<int>, lastSuccessAt: Option<int>)
  {
    predicate Active() {
      if BackfillRow? then status in {Queued, Running, Validating} else enabled && blockedReason.None?
    }
  }

  datatype Db = Db(leases: map<FeedKey, Lease>, targets: map<RowId, Target>)

  datatype Error = LeaseLost | AccessError(code: string) | UnsupportedTimeframe | InvalidLease | InvalidLimit

  const SECOND: int := 1000000

  /** A target is found by id and by every part of its feed. */
  function Find(db: Db, work: WorkRef): Option<Target> {
    if work.row in db.targets && db.targets[work.row].feed == work.feed
       && (work.row.kind == Backfill <==> db.targets[work.row].BackfillRow?)
    then Some(db.targets[work.row])
    else None
  }

  function Owned(lease: Lease, claim: LeaseClaim, now: int): bool {
    && lease.token == Some(claim.token) && lease.owner == Some(claim.owner)
    && lease.kind == Some(claim.work.row.kind) && lease.workId == Some(claim.work.row.id)
    && lease.until.Some? && lease.until.value > now
  }

  predicate Holds(db: Db, claim: LeaseClaim, now: int) {
    claim.work.feed in db.leases && Owned(db.leases[claim.work.feed], claim, now)
  }

  function PutLease(db: Db, feed: FeedKey, lease: Lease): Db { db.(leases := db.leases[feed := lease]) }

  function PutTarget(db: Db, row: RowId, target: Target): Db { db.(targets := db.targets[row := target]) }
}
