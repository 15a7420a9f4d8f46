/** Short, fenced transactions on the leases (app/market_data/infrastructure/leases.py). Each is one
    atomic step; one that raises leaves the tables as they were. */
module Leases {
  import opened Wrappers
  import opened WorkRows

  // ----- what each transaction does to the tables -----

  /** The retry delay after an interrupted or failed page, spread by the row's id. */
  function RetryDelay(failures: nat, least: int, id: nat): int {
    var base := if failures == 1 then 30 * SECOND else 120 * SECOND;
    (if least > base then least else base) + id % 6 * SECOND
  }

  function Interrupted(t: Target, id: nat, now: int): Target {
    var failures := t.failures + 1;
    var later := now + RetryDelay(failures, 0, id);
    match t
    case BackfillRow(_, _, _, _, _, _, _, _, _, _, _) =>
      t.(failures := failures, nextRunAt := later, errorCode := Some("worker_interrupted"),
         status := if failures >= 3 then Failed else Queued, finishedAt := if failures >= 3 then Some(now) else None)
    case SubscriptionRow(_, _, _, _, _, _, _, _, _, _, _) =>
      t.(failures := failures, nextRunAt := later, lastErrorCode := Some("worker_interrupted"),
         blockedReason := if failures >= 3 then Some("worker_interrupted") else t.blockedReason)
  }

  /** Charges an expired lease to its target, if that is still active, and frees it. */
  function Recover(db: Db, feed: FeedKey, now: int): Result<Db, Error>
    requires feed in db.leases
  {
    var lease := db.leases[feed];
    if lease.kind.None? || lease.workId.None? then Err(InvalidLease)
    else
      var work := WorkRef(feed, RowId(lease.kind.value, lease.workId.value));
      var target := Find(db, work);
      var charged := if target.Some? && target.value.Active()
                     then PutTarget(db, work.row, Interrupted(target.value, work.row.id, now)) else db;
      Ok(PutLease(charged, feed, FREE))
  }

  function Started(t: Target, now: int): Target {
    if t.BackfillRow? && t.status == Queued then
      t.(status := Running, attempts := t.attempts + 1,
         startedAt := if t.startedAt.None? then Some(now) else t.startedAt, finishedAt := None)
    else t
  }

  function Taken(work: WorkRef, owner: nat, token: nat, now: int, duration: int): Lease {
    Lease(Some(owner), Some(token), Some(now + duration), Some(now), Some(work.row.kind), Some(work.row.id))
  }

  /** Takes a free lease for a target that is due. */
  function TakeIfDue(db: Db, work: WorkRef, owner: nat, now: int, token: nat, duration: int): (Db, Option<LeaseClaim>) {
    var target := Find(db, work);
    if target.None? || !target.value.Active() || target.value.nextRunAt > now then (db, None)
    else
      (PutTarget(PutLease(db, work.feed, Taken(work, owner, token, now, duration)), work.row, Started(target.value, now)),
       Some(LeaseClaim(work, owner, token, target.value.nextFetchAt)))
  }

  function WithLeaseRow(db: Db, feed: FeedKey): Db {
    if feed in db.leases then db else PutLease(db, feed, FREE)
  }

  function Claim(db: Db, work: WorkRef, owner: nat, now: int, token: nat, duration: int): (Db,
        Result<Option<LeaseClaim>, Error>) {
    var keyed := WithLeaseRow(db, work.feed);
    var lease := keyed.leases[work.feed];
    if lease.token.None? then
      var (db', claim) := TakeIfDue(keyed, work, owner, now, token, duration);
      (db', Ok(claim))
    else if lease.until.None? || lease.until.value > now then (keyed, Ok(None))
    else
      match Recover(keyed, work.feed, now)
      case Err(e) => (db, Err(e))
      case Ok(recovered) =>
        var (db', claim) := TakeIfDue(recovered, work, owner, now, token, duration);
        (db', Ok(claim))
  }

  function Heartbeat(db: Db, claim: LeaseClaim, now: int, duration: int): Db {
    if Holds(db, claim, now) then
      PutLease(db, claim.work.feed, db.leases[claim.work.feed].(heartbeatAt := Some(now), until := Some(now + duration)))
    else db
  }

  function Release(db: Db, claim: LeaseClaim, now: int): Db {
    if Holds(db, claim, now) then PutLease(db, claim.work.feed, FREE) else db
  }

  /** The checks of a guarded write: ownership, an active target, and the cursor of the claim. */
  function Guarded(db: Db, claim: LeaseClaim, now: int): Result<Target, Error> {
    if !Holds(db, claim, now) then Err(LeaseLost)
    else
      var target := Find(db, claim.work);
      if target.None? || !target.value.Active() || target.value.nextFetchAt != claim.nextFetchAt then Err(LeaseLost)
      else Ok(target.value)
  }

  /** What a guarded write commits: the target, and with `release` the freed lease. */
  function Commit(db: Db, claim: LeaseClaim, target: Target, release: bool): Db {
    var written := PutTarget(db, claim.work.row, target);
    if release then PutLease(written, claim.work.feed, FREE) else written
  }

  predicate Expired(db: Db, feed: FeedKey, now: int)
    requires feed in db.leases
  {
    db.leases[feed].until.Some? && db.leases[feed].until.value <= now
  }

  /** Recovers the leases of some feeds, one after the other, reading the clock for each; an
      unreadable lease stops the batch. */
  function RecoverAll(db: Db, feeds: seq<FeedKey>, clock: nat -> int): Result<Db, Error>
    requires forall i :: 0 <= i < |feeds| ==> feeds[i] in db.leases
    ensures RecoverAll(db, feeds, clock).Ok? ==> RecoverAll(db, feeds, clock).value.leases.Keys == db.leases.Keys
  {
    if feeds == [] then Ok(db)
    else
      var recovered :- RecoverAll(db, feeds[..|feeds| - 1], clock);
      Recover(recovered, feeds[|feeds| - 1], clock(|feeds| - 1))
  }

  // ----- the batch recover_expired takes -----

  predicate AllExpired(db: Db, rows: seq<FeedKey>, now: int) {
    forall i :: 0 <= i < |rows| ==> rows[i] in db.leases && Expired(db, rows[i], now)
  }

  predicate Distinct(rows: seq<FeedKey>) {
    forall i, j :: 0 <= i < j < |rows| ==> rows[i] != rows[j]
  }

  predicate Listed(rows: seq<FeedKey>, feed: FeedKey) {
    exists i :: 0 <= i < |rows| && rows[i] == feed
  }

  function Until(db: Db, feed: FeedKey): int {
    if feed in db.leases && db.leases[feed].until.Some? then db.leases[feed].until.value else 0
  }

  predicate Oldest(db: Db, rows: seq<FeedKey>, now: int) {
    && (forall i, j :: 0 <= i < j < |rows| ==> Until(db, rows[i]) <= Until(db, rows[j]))
    && (forall feed :: feed in db.leases && Expired(db, feed, now) && !Listed(rows, feed) ==>
          forall i :: 0 <= i < |rows| ==> Until(db, rows[i]) <= Until(db, feed))
  }

  predicate Chosen(db: Db, rows: seq<FeedKey>, now: int) {
    Distinct(rows) && AllExpired(db, rows, now) && Oldest(db, rows, now)
  }

  /** The expired leases that ran out first, at most `limit` of them, the earliest first; fewer only
      if there are no more. */
  predicate IsBatch(db: Db, rows: seq<FeedKey>, limit: int, now: int) {
    && |rows| <= limit && Chosen(db, rows, now)
    && (|rows| < limit ==> forall feed :: feed in db.leases && Expired(db, feed, now) ==> Listed(rows, feed))
  }

  predicate IsNext(db: Db, rows: seq<FeedKey>, next: Option<FeedKey>, now: int) {
    match next
    case None => forall feed :: feed in db.leases && Expired(db, feed, now) ==> Listed(rows, feed)
    case Some(feed) =>
      feed in db.leases && Expired(db, feed, now) && !Listed(rows, feed)
      && forall other :: other in db.leases && Expired(db, other, now) && !Listed(rows, other) ==>
            Until(db, feed) <= Until(db, other)
  }

  lemma ListedLonger(rows: seq<FeedKey>, next: FeedKey, feed: FeedKey)
    ensures Listed(rows + [next], feed) <==> Listed(rows, feed) || feed == next
  {
    if Listed(rows, feed) {
      var i :| 0 <= i < |rows| && rows[i] == feed;
      assert (rows + [next])[i] == feed;
    }
    assert (rows + [next])[|rows|] == next;
  }

  lemma ChooseOneMore(db: Db, rows: seq<FeedKey>, next: FeedKey, now: int)
    requires Chosen(db, rows, now) && IsNext(db, rows, Some(next), now)
    ensures Chosen(db, rows + [next], now)
  {
    var longer := rows + [next];
    assert forall i :: 0 <= i < |rows| ==> rows[i] != next;
    assert forall i :: 0 <= i < |rows| ==> Until(db, rows[i]) <= Until(db, next);
    forall feed | feed in db.leases && Expired(db, feed, now) && !Listed(longer, feed)
      ensures forall i :: 0 <= i < |longer| ==> Until(db, longer[i]) <= Until(db, feed)
    {
      ListedLonger(rows, next, feed);
    }
  }

  // ----- the store -----

  class LeaseStore {
    const duration: int
    var leases: map<FeedKey, Lease>
    var targets: map<RowId, Target>

    ghost function Tables(): Db
      reads this
    {
      Db(leases, targets)
    }

    constructor (leaseSeconds: int)
      requires 1 <= leaseSeconds <= 3600
      ensures Tables() == Db(map[], map[]) && duration == leaseSeconds * SECOND
    {
      duration := leaseSeconds * SECOND;
      leases, targets := map[], map[];
    }

    method Clear(feed: FeedKey)
      modifies this`leases
      ensures Tables() == PutLease(old(Tables()), feed, FREE)
    {
      leases := leases[feed := FREE];
    }

    method TryTake(work: WorkRef, owner: nat, now: int, token: nat) returns (claim: Option<LeaseClaim>)
      modifies this
      ensures (Tables(), claim) == TakeIfDue(old(Tables()), work, owner, now, token, duration)
    {
      var target := Find(Db(leases, targets), work);
      if target.None? || !target.value.Active() || target.value.nextRunAt > now {
        return None;
      }
      leases := leases[work.feed := Taken(work, owner, token, now, duration)];
      var t := target.value;
      if t.BackfillRow? && t.status == Queued {
        t := t.(status := Running, attempts := t.attempts + 1);
        if t.startedAt.None? {
          t := t.(startedAt := Some(now));
        }
        t := t.(finishedAt := None);
      }
      targets := targets[work.row := t];
      claim := Some(LeaseClaim(work, owner, token, target.value.nextFetchAt));
    }

    method RecoverLease(feed: FeedKey, now: int) returns (failed: Option<Error>)
      requires feed in leases
      modifies this
      ensures match Recover(old(Tables()), feed, now)
              case Ok(db) => failed == None && Tables() == db
              case Err(e) => failed == Some(e) && Tables() == old(Tables())
    {
      var lease := leases[feed];
      if lease.kind.None? || lease.workId.None? {
        return Some(InvalidLease);
      }
      var work := WorkRef(feed, RowId(lease.kind.value, lease.workId.value));
      var target := Find(Db(leases, targets), work);
      if target.Some? && target.value.Active() {
        var t := target.value;
        var failures := t.failures + 1;
        t := t.(failures := failures, nextRunAt := now + RetryDelay(failures, 0, work.row.id));
        if t.BackfillRow? {
          t := t.(errorCode := Some("worker_interrupted"));
          if failures >= 3 {
            t := t.(status := Failed, finishedAt := Some(now));
          } else {
            t := t.(status := Queued, finishedAt := None);
          }
        } else {
          t := t.(lastErrorCode := Some("worker_interrupted"));
          if failures >= 3 {
            t := t.(blockedReason := Some("worker_interrupted"));
          }
        }
        targets := targets[work.row := t];
      }
      Clear(feed);
      return None;
    }

    /** `token` is the fresh identifier this claim will use if it succeeds. */
    method TryClaim(work: WorkRef, owner: nat, now: int, token: nat) returns (r: Result<Option<LeaseClaim>, Error>)
      modifies this
      ensures (Tables(), r) == Claim(old(Tables()), work, owner, now, token, duration)
    {
      var before := leases;
      if work.feed !in leases {
        leases := leases[work.feed := FREE];
      }
      var lease := leases[work.feed];
      if lease.token.Some? {
        if lease.until.None? || lease.until.value > now {
          return Ok(None);
        }
        var failed := RecoverLease(work.feed, now);
        if failed.Some? {
          leases := before;
          return Err(failed.value);
        }
      }
      var claim := TryTake(work, owner, now, token);
      return Ok(claim);
    }

    method Beat(claim: LeaseClaim, now: int) returns (ok: bool)
      modifies this`leases
      ensures ok == Holds(old(Tables()), claim, now)
      ensures Tables() == Heartbeat(old(Tables()), claim, now, duration)
    {
      ok := claim.work.feed in leases && Owned(leases[claim.work.feed], claim, now);
      if ok {
        leases := leases[claim.work.feed := leases[claim.work.feed].(heartbeatAt := Some(now), until := Some(now + duration))];
      }
    }

    /** Graceful: no failure is counted and the cursor stays. */
    method GiveBack(claim: LeaseClaim, now: int) returns (ok: bool)
      modifies this`leases
      ensures ok == Holds(old(Tables()), claim, now)
      ensures Tables() == Release(old(Tables()), claim, now)
    {
      ok := claim.work.feed in leases && Owned(leases[claim.work.feed], claim, now);
      if ok {
        Clear(claim.work.feed);
      }
    }

    /** Opens a guarded write. */
    method Begin(claim: LeaseClaim, now: int) returns (r: Result<Target, Error>)
      ensures r == Guarded(Tables(), claim, now)
    {
      if claim.work.feed !in leases || !Owned(leases[claim.work.feed], claim, now) {
        return Err(LeaseLost);
      }
      var target := Find(Db(leases, targets), claim.work);
      if target.None? || !target.value.Active() || target.value.nextFetchAt != claim.nextFetchAt {
        return Err(LeaseLost);
      }
      return Ok(target.value);
    }

    /** Closes a guarded write. */
    method End(claim: LeaseClaim, target: Target, release: bool)
      modifies this
      ensures Tables() == Commit(old(Tables()), claim, target, release)
    {
      targets := targets[claim.work.row := target];
      if release {
        Clear(claim.work.feed);
      }
    }

    /** The expired lease that ran out first among those not yet listed. */
    method NextExpired(rows: seq<FeedKey>, now: int) returns (next: Option<FeedKey>)
      ensures IsNext(Tables(), rows, next, now)
    {
      next := None;
      var todo := leases.Keys;
      while todo != {}
        invariant todo <= leases.Keys
        invariant next.None? ==> forall feed :: feed in leases && feed !in todo && Expired(Tables(), feed, now) ==>
              Listed(rows, feed)
        invariant next.Some? ==>
                    && next.value in leases && Expired(Tables(), next.value, now) && !Listed(rows, next.value)
                    && forall feed :: feed in leases && feed !in todo && Expired(Tables(), feed, now) && !Listed(rows, feed) ==>
                                        Until(Tables(), next.value) <= Until(Tables(), feed)
        decreases todo
      {
        var feed :| feed in todo;
        todo := todo - {feed};
        var until := leases[feed].until;
        if until.Some? && until.value <= now && !Listed(rows, feed)
           && (next.None? || until.value < leases[next.value].until.value) {
          next := Some(feed);
        }
      }
    }

    method ChooseExpired(limit: int, now: int) returns (rows: seq<FeedKey>)
      requires limit >= 1
      ensures IsBatch(Tables(), rows, limit, now)
    {
      rows := [];
      var next := NextExpired(rows, now);
      while |rows| < limit && next.Some?
        invariant |rows| <= limit && Chosen(Tables(), rows, now) && IsNext(Tables(), rows, next, now)
        decreases limit - |rows|
      {
        ChooseOneMore(Tables(), rows, next.value, now);
        rows := rows + [next.value];
        next := NextExpired(rows, now);
      }
    }

    /** The rows are chosen at `now`; `clock` gives the reading taken for each of them. */
    method RecoverExpired(limit: int, now: int, clock: nat -> int) returns (r: Result<seq<FeedKey>, Error>)
      modifies this
      ensures !(1 <= limit <= 1000) ==> r == Err(InvalidLimit)
      ensures r.Ok? ==> IsBatch(old(Tables()), r.value, limit, now) && RecoverAll(old(Tables()), r.value, clock) == Ok(Tables())
      ensures r.Err? ==> Tables() == old(Tables())
    {
      if !(1 <= limit <= 1000) {
        return Err(InvalidLimit);
      }
      var rows := ChooseExpired(limit, now);
      hide Oldest, Recover;
      var leasesBefore, targetsBefore := leases, targets;
      var k := 0;
      while k < |rows|
        invariant 0 <= k <= |rows|
        invariant leases.Keys == leasesBefore.Keys && old(Tables()) == Db(leasesBefore, targetsBefore)
        invariant AllExpired(old(Tables()), rows, now)
        invariant RecoverAll(old(Tables()), rows[..k], clock) == Ok(Tables())
      {
        assert rows[..k + 1][..k] == rows[..k];
        var failed := RecoverLease(rows[k], clock(k));
        if failed.Some? {
          leases, targets := leasesBefore, targetsBefore;
          return Err(failed.value);
        }
        k := k + 1;
      }
      assert rows[..k] == rows;
      return Ok(rows);
    }
  }
}
