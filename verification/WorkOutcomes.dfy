/** What single transactions of a worker grant, refuse and charge, as conditions on the tables before
    and after. */
module WorkOutcomes {
  import opened Wrappers
  import opened WorkRows
  import opened Leases
  import opened Pages

  // ----- leases -----

  /** The feed's lease can be had for a row: nobody has it, or it expired on another row. */
  predicate Obtainable(db: Db, feed: FeedKey, row: RowId, now: int) {
    feed in db.leases && db.leases[feed].token.Some? ==>
      var lease := db.leases[feed];
      && lease.until.Some? && lease.until.value <= now
      && lease.kind.Some? && lease.workId.Some? && RowId(lease.kind.value, lease.workId.value) != row
  }

  /** A claimed target: a queued job now runs, one attempt further; all else is left as it was. */
  predicate Claimed(t: Target, u: Target, now: int) {
    if t.BackfillRow? && t.status == Queued then
      && u.BackfillRow? && u.status == Running && u.attempts == t.attempts + 1 && u.finishedAt.None?
      && u.startedAt == Some(if t.startedAt.Some? then t.startedAt.value else now)
      && u == t.(status := Running, attempts := u.attempts, startedAt := u.startedAt, finishedAt := None)
    else u == t
  }

  /** A claim is given exactly for a target that is found, active and due, on an obtainable lease; then
      it alone holds the lease, until the lease time is over. */
  lemma ClaimIsGivenExactly(db: Db, work: WorkRef, owner: nat, now: int, token: nat, duration: int, later: int)
    requires duration > 0
    ensures var (db', r) := Claim(db, work, owner, now, token, duration);
            && ((r.Ok? && r.value.Some?) <==>
                  && Find(db, work).Some? && Find(db, work).value.Active() && Find(db, work).value.nextRunAt <= now
                  && Obtainable(db, work.feed, work.row, now))
            && (r.Ok? && r.value.Some? ==>
                  && r.value.value == LeaseClaim(work, owner, token, Find(db, work).value.nextFetchAt)
                  && Find(db', work).Some? && Claimed(Find(db, work).value, Find(db', work).value, now)
                  && (later >= now ==> (Holds(db', r.value.value, later) <==> later < now + duration)))
  {
  }

  /** A heartbeat extends the lease of its holder to a whole lease time from now, and does nothing for
      anyone else. */
  lemma HeartbeatExtends(db: Db, claim: LeaseClaim, now: int, duration: int, later: int)
    requires later >= now
    ensures var db' := Heartbeat(db, claim, now, duration);
            && db'.targets == db.targets
            && (Holds(db', claim, later) <==> Holds(db, claim, now) && later < now + duration)
            && (!Holds(db, claim, now) ==> db' == db)
            && (Holds(db, claim, now) ==> db'.leases[claim.work.feed].heartbeatAt == Some(now)
                                          && db'.leases.Keys == db.leases.Keys
                                          && forall feed :: feed in db.leases && feed != claim.work.feed ==>
                                               db'.leases[feed] == db.leases[feed])
  {
  }

  // ----- failures -----

  /** Microseconds to wait after the n-th failure in a row, spread by the row's id. */
  function Wait(n: nat, asked: nat, id: nat): int {
    Max(if n == 1 then 30000000 else 120000000, asked) + id % 6 * 1000000
  }

  /** One failure more, with its code and its wait; the checkpoint stays, and the target goes on exactly
      if `retried`. */
  predicate Charged(t: Target, u: Target, code: string, wait: int, now: int, retried: bool) {
    && u.failures == t.failures + 1 && u.nextRunAt == now + wait && u.nextFetchAt == t.nextFetchAt && u.feed == t.feed
    && u.Active() == retried
    && (t.BackfillRow? ==>
          && u.BackfillRow? && u.fromTime == t.fromTime && u.toTime == t.toTime && u.errorCode == Some(code)
          && u.status == (if retried then Queued else Failed) && u.finishedAt == (if retried then None else Some(now)))
    && (t.SubscriptionRow? ==>
          && u.SubscriptionRow? && u.scanTo == t.scanTo && u.enabled == t.enabled && u.lastErrorCode == Some(code)
          && (!retried ==> u.blockedReason == Some(code)))
  }

  /** A failed page: the target goes on exactly if the failure may be retried and is not the third. */
  lemma FailureIsCharged(db: Db, claim: LeaseClaim, failure: PageFailure, check: int, now: int)
    ensures var r := Fail(db, claim, failure, check, now);
            && (r.Ok? <==> Guarded(db, claim, check).Ok?)
            && (r.Ok? ==>
                  && Find(db, claim.work).Some? && Find(r.value, claim.work).Some?
                  && claim.work.feed in r.value.leases && r.value.leases[claim.work.feed] == FREE
                  && var (t, u) := (Find(db, claim.work).value, Find(r.value, claim.work).value);
                  Charged(t, u, failure.code, Wait(u.failures, failure.retryAfterMicros, claim.work.row.id), now,
                          failure.retryable && u.failures < 3))
  {
  }

  /** An expired lease: its target, if active, is charged an interruption, the third of which stops it. */
  lemma InterruptionIsCharged(db: Db, feed: FeedKey, now: int)
    requires feed in db.leases && db.leases[feed].kind.Some? && db.leases[feed].workId.Some?
    ensures var work := WorkRef(feed, RowId(db.leases[feed].kind.value, db.leases[feed].workId.value));
            var r := Recover(db, feed, now);
            && r.Ok? && r.value.leases == db.leases[feed := FREE]
            && (if Find(db, work).Some? && Find(db, work).value.Active() then
                  && Find(r.value, work).Some?
                  && var (t, u) := (Find(db, work).value, Find(r.value, work).value);
                  && Charged(t, u, "worker_interrupted", Wait(u.failures, 0, work.row.id), now, u.failures < 3)
                  && r.value.targets == db.targets[work.row := u]
                else r.value.targets == db.targets)
  {
  }

  // ----- writes of a prepared page -----

  /** A page is saved exactly if its response is usable, its claim still owns the lease and its row
      stands where it was prepared, and the access is found unchanged. */
  lemma SaveGoesThroughExactly(db: Db, page: PreparedPage, points: seq<CandlePoint>, resolved: Result<Access, Error>,
        check: int, now: int)
    ensures Save(db, page, points, resolved, check, now).Ok? <==>
            Usable(page, points) && Guarded(db, page.claim, check).Ok? && resolved == Ok(page.access)
    ensures Usable(page, points) && Guarded(db, page.claim, check).Ok? && resolved.Ok? && resolved.value != page.access ==>
              Save(db, page, points, resolved, check, now) == Err(AccessError("access_changed"))
  {
    hide Usable, Guarded;
  }

  /** A job is completed exactly under the same conditions; then it has succeeded and its lease is free. */
  lemma CompletionGoesThroughExactly(db: Db, page: PreparedPage, resolved: Result<Access, Error>, check: int, now: int)
    ensures var r := Complete(db, page, resolved, check, now);
            && (r.Ok? <==>
                  Guarded(db, page.claim, check).Ok? && resolved == Ok(page.access) && page.claim.work.row.kind == Backfill)
            && (r.Ok? ==>
                  && Find(db, page.claim.work).Some? && Find(r.value, page.claim.work).Some?
                  && r.value.leases == db.leases[page.claim.work.feed := FREE]
                  && var (t, u) := (Find(db, page.claim.work).value, Find(r.value, page.claim.work).value);
                  && t.BackfillRow? && u.BackfillRow? && u.status == Succeeded && u.finishedAt == Some(now)
                  && u == t.(status := Succeeded, errorCode := None, failures := 0, finishedAt := Some(now)))
  {
  }

  /** A saved page of a job: the cursor at its end, no failure left, due at once, and the lease free. */
  lemma SavedJobGoesOn(db: Db, page: PreparedPage, points: seq<CandlePoint>, resolved: Result<Access, Error>,
        check: int, now: int)
    requires page.claim.work.row.kind == Backfill
    ensures var r := Save(db, page, points, resolved, check, now);
            r.Ok? ==>
              && Find(db, page.claim.work).Some? && Find(r.value, page.claim.work).Some?
              && r.value.leases == db.leases[page.claim.work.feed := FREE]
              && var (t, u) := (Find(db, page.claim.work).value, Find(r.value, page.claim.work).value);
              && t.BackfillRow? && u.BackfillRow? && u.nextFetchAt == Some(page.end) && u.nextRunAt == now
              && u.failures == 0 && u.errorCode.None? && u.status == t.status && u.attempts == t.attempts
  {
    hide Usable;
  }
}
