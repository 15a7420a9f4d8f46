/** What every interleaving of workers keeps: leases are whole, an owned lease's claim agrees with
    its row, and rows satisfy the constraints of their tables. */
module WorkerSafety {
  import opened Wrappers
  import opened WorkRows
  import opened Leases
  import opened Pages
  import opened WorkerRuns
  import Arithmetic

  /** Where a job continues. */
  function Cursor(t: Target): int
    requires t.BackfillRow?
  {
    if t.nextFetchAt.Some? then t.nextFetchAt.value else t.fromTime
  }

  /** The tables' CHECK constraints, and: an active target has failed less than three times in a
      row, and a job succeeds only with its whole range fetched. */
  predicate RowOk(row: RowId, t: Target) {
    && (row.kind == Backfill <==> t.BackfillRow?)
    && t.failures <= 3
    && (t.BackfillRow? ==>
          && t.fromTime <= Cursor(t) <= t.toTime
          && (t.Active() ==> t.failures < 3)
          && (t.status == Succeeded ==> Cursor(t) == t.toTime))
    && (t.SubscriptionRow? ==>
          && (t.nextFetchAt.None? <==> t.scanTo.None?)
          && (t.nextFetchAt.Some? ==> t.nextFetchAt.value <= t.scanTo.value)
          && (t.blockedReason.None? ==> t.failures < 3))
  }

  /** The page was prepared from the row as it is now. */
  predicate PageFits(t: Target, page: PreparedPage, s: Settings) {
    var d := TimeframeDelta(t.feed.timeframe);
    && d.Some? && Checkpoint(t).Ok?
    && var (start, scanEnd) := Checkpoint(t).value;
    && page.scanEnd == scanEnd && start - d.value <= page.start <= start <= scanEnd
    && page.end == Min(scanEnd, page.start + PageSize(s.chosen, page.access.exchange) * d.value)
    && (t.BackfillRow? ==> page.start == RequestStart(t, None, start, scanEnd, d.value))
  }

  /** A taken lease carries all six owner fields, of a claim that was issued for this feed; the row
      it was taken for still stands at the claim's cursor. */
  predicate Bound(w: World, feed: FeedKey, token: nat, s: Settings)
    requires feed in w.db.leases
  {
    var l := w.db.leases[feed];
    && token in w.issued
    && var c := w.issued[token];
    && c.token == token && c.work.feed == feed
    && l == Lease(Some(c.owner), Some(token), l.until, l.heartbeatAt, Some(c.work.row.kind), Some(c.work.row.id))
    && l.until.Some? && l.heartbeatAt.Some? && l.heartbeatAt.value < l.until.value
    && Find(w.db, c.work).Some? && Find(w.db, c.work).value.nextFetchAt == c.nextFetchAt
    && (token in w.pages ==> w.pages[token].claim == c && PageFits(Find(w.db, c.work).value, w.pages[token], s))
  }

  predicate FeedOk(w: World, feed: FeedKey, s: Settings)
    requires feed in w.db.leases
  {
    w.db.leases[feed] == FREE || (w.db.leases[feed].token.Some? && Bound(w, feed, w.db.leases[feed].token.value, s))
  }

  predicate LeasesOk(w: World, s: Settings) { forall feed :: feed in w.db.leases ==> FeedOk(w, feed, s) }

  predicate RowsOk(w: World) { forall row :: row in w.db.targets ==> RowOk(row, w.db.targets[row]) }

  predicate SameWork(a: LeaseClaim, b: LeaseClaim) { a.work == b.work && a.owner == b.owner && a.token == b.token }

  predicate TokensOk(w: World) {
    && (forall token :: token in w.issued ==> w.issued[token].token == token)
    && (forall token :: token in w.pages ==> token in w.issued && SameWork(w.pages[token].claim, w.issued[token]))
  }

  predicate Inv(w: World, s: Settings) { LeasesOk(w, s) && RowsOk(w) && TokensOk(w) }

  // ----- steps on one feed leave the others alone -----

  predicate SameLeases(w: World, v: World, feed: FeedKey) {
    forall g :: g in v.db.leases && g != feed ==> g in w.db.leases && v.db.leases[g] == w.db.leases[g]
  }

  predicate SameRows(w: World, v: World, feed: FeedKey) {
    forall row :: row in w.db.targets ==>
                    row in v.db.targets && v.db.targets[row].feed == w.db.targets[row].feed
                    && (w.db.targets[row].feed != feed ==> v.db.targets[row] == w.db.targets[row])
  }

  predicate SameClaims(w: World, v: World, feed: FeedKey) {
    forall token :: token in w.issued && w.issued[token].work.feed != feed ==>
                      token in v.issued && v.issued[token] == w.issued[token]
                      && (token in v.pages <==> token in w.pages) && (token in w.pages ==> v.pages[token] == w.pages[token])
  }

  lemma OthersKeep(w: World, v: World, feed: FeedKey, s: Settings)
    requires LeasesOk(w, s) && SameLeases(w, v, feed) && SameRows(w, v, feed) && SameClaims(w, v, feed)
    requires feed in v.db.leases ==> FeedOk(v, feed, s)
    ensures LeasesOk(v, s)
  {
  }

  lemma OneRow(w: World, v: World, row: RowId)
    requires RowsOk(w) && v.db.targets.Keys <= w.db.targets.Keys + {row}
    requires forall other :: other in v.db.targets && other != row ==>
          other in w.db.targets && v.db.targets[other] == w.db.targets[other]
    requires row in v.db.targets ==> RowOk(row, v.db.targets[row])
    ensures RowsOk(v)
  {
  }

  // ----- what the row functions keep -----

  lemma InterruptedRowOk(row: RowId, t: Target, now: int)
    requires RowOk(row, t) && t.Active()
    ensures RowOk(row, Interrupted(t, row.id, now)) && Interrupted(t, row.id, now).feed == t.feed
    ensures Interrupted(t, row.id, now).nextFetchAt == t.nextFetchAt
  {
  }

  lemma FailedRowOk(row: RowId, t: Target, failure: PageFailure, now: int)
    requires RowOk(row, t) && t.Active()
    ensures RowOk(row, FailedOnce(t, failure, row.id, now)) && FailedOnce(t, failure, row.id, now).feed == t.feed
  {
  }

  /** A page reaches at least one bar past where its row stands. */
  lemma PageReaches(t: Target, page: PreparedPage, s: Settings)
    requires s.Sound() && PageFits(t, page, s)
    ensures var (start, scanEnd) := Checkpoint(t).value;
            start <= page.end <= scanEnd && (start < scanEnd ==> start < page.end)
  {
  }

  lemma SavedRowOk(row: RowId, t: Target, page: PreparedPage, now: int, s: Settings)
    requires s.Sound() && RowOk(row, t) && t.Active() && PageFits(t, page, s)
    ensures RowOk(row, Saved(t, page, now)) && Saved(t, page, now).feed == t.feed
  {
  }

  lemma ScanningRowOk(row: RowId, t: Target, latest: Option<int>, delta: int, now: int)
    requires RowOk(row, t) && delta > 0
    ensures RowOk(row, Scanning(t, latest, delta, now)) && Scanning(t, latest, delta, now).feed == t.feed
    ensures Checkpoint(Scanning(t, latest, delta, now)).Ok?
  {
  }

  lemma PreparedPageFits(row: RowId, t: Target, claim: LeaseClaim, access: Access, latest: Option<int>, s: Settings, now: int)
    requires RowOk(row, t) && TimeframeDelta(t.feed.timeframe).Some? && claim.nextFetchAt == t.nextFetchAt
    ensures var d := TimeframeDelta(t.feed.timeframe).value;
            var page := PageFor(t, claim, access, latest, d, s.chosen, now);
            && page.Ok? && PageFits(Scanning(t, latest, d, now), page.value, s)
            && page.value.claim.nextFetchAt == Scanning(t, latest, d, now).nextFetchAt
            && SameWork(page.value.claim, claim)
  {
  }

  // ----- every step keeps the invariant -----

  lemma RowIsOk(w: World, row: RowId, s: Settings)
    requires Inv(w, s) && row in w.db.targets
    ensures RowOk(row, w.db.targets[row])
  {
  }

  /** A row of the feed is rewritten, or not, and the lease is freed. */
  lemma WriteAndFree(w: World, v: World, feed: FeedKey, row: RowId, t: Target, s: Settings)
    requires Inv(w, s) && v.issued == w.issued && v.pages == w.pages
    requires row in w.db.targets && w.db.targets[row].feed == feed && t.feed == feed && RowOk(row, t)
    requires v.db == PutLease(PutTarget(w.db, row, t), feed, FREE)
    ensures Inv(v, s)
  {
  }

  lemma OnlyFree(w: World, v: World, feed: FeedKey, s: Settings)
    requires Inv(w, s) && v.issued == w.issued && v.pages == w.pages && v.db == PutLease(w.db, feed, FREE)
    ensures Inv(v, s)
  {
  }

  /** Whoever passes the guard holds the lease its claim was issued for, at the cursor it knows. */
  lemma GuardMeansBound(w: World, claim: LeaseClaim, token: nat, now: int, s: Settings)
    requires Inv(w, s) && token in w.issued && SameWork(claim, w.issued[token]) && Guarded(w.db, claim, now).Ok?
    ensures claim.work.feed in w.db.leases && w.db.leases[claim.work.feed].token == Some(token)
    ensures Bound(w, claim.work.feed, token, s) && Find(w.db, claim.work) == Some(Guarded(w.db, claim, now).value)
    ensures claim.work.row in w.db.targets && RowOk(claim.work.row, Guarded(w.db, claim, now).value)
    ensures Guarded(w.db, claim, now).value.feed == claim.work.feed && Guarded(w.db, claim, now).value.Active()
    ensures claim.nextFetchAt == Guarded(w.db, claim, now).value.nextFetchAt
  {
  }

  lemma SaveKeepsInv(w: World, token: nat, points: seq<CandlePoint>, resolved: Result<Access, Error>, at: int,
        now: int, s: Settings)
    requires Inv(w, s) && s.Sound() && token in w.pages
    ensures Inv(AfterSave(w, token, points, resolved, at, now), s)
  {
    hide RowOk, PageFits, Saved, Usable, LeasesOk, RowsOk;
    var page := w.pages[token];
    if Save(w.db, page, points, resolved, at, now).Ok? {
      GuardMeansBound(w, page.claim, token, at, s);
      var t := Guarded(w.db, page.claim, at).value;
      SavedRowOk(page.claim.work.row, t, page, now, s);
      hide Guarded, Bound;
      WriteAndFree(w, AfterSave(w, token, points, resolved, at, now), page.claim.work.feed, page.claim.work.row,
            Saved(t, page, now), s);
    }
  }

  lemma CompleteKeepsInv(w: World, token: nat, resolved: Result<Access, Error>, at: int, now: int, s: Settings)
    requires Inv(w, s) && s.Sound() && token in w.pages && Finishing(w.pages[token])
    ensures Inv(AfterComplete(w, token, resolved, at, now), s)
  {
    hide LeasesOk, RowsOk;
    var page := w.pages[token];
    if Complete(w.db, page, resolved, at, now).Ok? {
      GuardMeansBound(w, page.claim, token, at, s);
      var t := Guarded(w.db, page.claim, at).value;
      var done := t.(status := Succeeded, errorCode := None, failures := 0, finishedAt := Some(now));
      FinishingMeansFetched(t, page, s);
      hide Guarded, Bound;
      WriteAndFree(w, AfterComplete(w, token, resolved, at, now), page.claim.work.feed, page.claim.work.row, done, s);
    }
  }

  /** The empty last page is prepared only at the end of the range. */
  lemma FinishingMeansFetched(t: Target, page: PreparedPage, s: Settings)
    requires t.BackfillRow? && PageFits(t, page, s)
    ensures page.start == page.scanEnd <==> Cursor(t) == t.toTime
  {
  }

  lemma FailKeepsInv(w: World, token: nat, failure: PageFailure, at: int, now: int, s: Settings)
    requires Inv(w, s) && token in w.issued
    ensures Inv(AfterFail(w, token, failure, at, now), s)
  {
    hide RowOk, FailedOnce, LeasesOk, RowsOk;
    var claim := w.issued[token];
    if Fail(w.db, claim, failure, at, now).Ok? {
      GuardMeansBound(w, claim, token, at, s);
      var t := Guarded(w.db, claim, at).value;
      FailedRowOk(claim.work.row, t, failure, now);
      hide Guarded, Bound;
      WriteAndFree(w, AfterFail(w, token, failure, at, now), claim.work.feed, claim.work.row, FailedOnce(t, failure,
            claim.work.row.id, now), s);
    }
  }

  lemma RecoverKeepsInv(w: World, feed: FeedKey, now: int, s: Settings)
    requires Inv(w, s) && feed in w.db.leases
    ensures Inv(AfterRecover(w, feed, now), s)
    ensures AfterRecover(w, feed, now).issued == w.issued && feed in AfterRecover(w, feed, now).db.leases
  {
    hide RowOk, Interrupted, PageFits;
    assert FeedOk(w, feed, s);
    var lease := w.db.leases[feed];
    if lease != FREE {
      var row := RowId(lease.kind.value, lease.workId.value);
      var t := Find(w.db, WorkRef(feed, row)).value;
      hide LeasesOk, Bound, FeedOk;
      if t.Active() {
        InterruptedRowOk(row, t, now);
        WriteAndFree(w, AfterRecover(w, feed, now), feed, row, Interrupted(t, row.id, now), s);
      } else {
        OnlyFree(w, AfterRecover(w, feed, now), feed, s);
      }
    }
  }

  lemma StartedRowOk(row: RowId, t: Target, now: int)
    requires RowOk(row, t) && t.Active()
    ensures RowOk(row, Started(t, now)) && Started(t, now).feed == t.feed && Started(t, now).nextFetchAt == t.nextFetchAt
    ensures Started(t, now).BackfillRow? == t.BackfillRow?
  {
  }

  /** The lease of a feed is taken for one of its rows, or its claim moves on within that row. */
  lemma Rebound(w: World, v: World, claim: LeaseClaim, t: Target, s: Settings)
    requires Inv(w, s) && claim.work.row in w.db.targets && w.db.targets[claim.work.row].feed == claim.work.feed
    requires RowOk(claim.work.row, t) && t.feed == claim.work.feed
    requires claim.token in w.issued ==> SameWork(w.issued[claim.token], claim)
    requires v.issued == w.issued[claim.token := claim]
    requires (v.pages == w.pages && claim.token !in w.pages) || (claim.token in v.pages
          && v.pages == w.pages[claim.token := v.pages[claim.token]])
    requires claim.token in v.pages ==> v.pages[claim.token].claim == claim
    requires v.db.targets == w.db.targets[claim.work.row := t]
    requires claim.work.feed in v.db.leases && v.db.leases == w.db.leases[claim.work.feed := v.db.leases[claim.work.feed]]
    requires v.db.leases[claim.work.feed].token == Some(claim.token) && Bound(v, claim.work.feed, claim.token, s)
    ensures Inv(v, s)
  {
    hide RowOk, Bound, PageFits;
    assert RowsOk(v) by {
      OneRow(w, v, claim.work.row);
    }
    assert TokensOk(v);
    hide RowsOk, TokensOk;
    OthersKeep(w, v, claim.work.feed, s);
  }

  lemma TakeKeepsInv(w: World, work: WorkRef, owner: nat, now: int, token: nat, s: Settings)
    requires Inv(w, s) && s.Sound() && token !in w.issued && work.feed in w.db.leases && w.db.leases[work.feed] == FREE
    ensures Inv(AfterTake(w, work, owner, now, token, s), s)
  {
    hide PageFits, RowOk, LeasesOk, RowsOk, Started;
    var v := AfterTake(w, work, owner, now, token, s);
    if TakeIfDue(w.db, work, owner, now, token, s.duration).1.Some? {
      var t := Find(w.db, work).value;
      RowIsOk(w, work.row, s);
      StartedRowOk(work.row, t, now);
      assert Bound(v, work.feed, token, s);
      hide Bound, Inv;
      Rebound(w, v, v.issued[token], Started(t, now), s);
    }
  }

  lemma ClaimKeepsInv(w: World, work: WorkRef, owner: nat, now: int, token: nat, s: Settings)
    requires Inv(w, s) && s.Sound() && token !in w.issued
    ensures Inv(AfterClaim(w, work, owner, now, token, s), s)
  {
    var keyed := w.(db := WithLeaseRow(w.db, work.feed));
    if work.feed !in w.db.leases {
      OnlyFree(w, keyed, work.feed, s);
    }
    assert Inv(keyed, s);
    assert FeedOk(keyed, work.feed, s);
    var lease := keyed.db.leases[work.feed];
    hide Inv, Recover, TakeIfDue;
    if lease.token.None? {
      TakeKeepsInv(keyed, work, owner, now, token, s);
    } else if lease.until.Some? && lease.until.value <= now {
      RecoverKeepsInv(keyed, work.feed, now, s);
      RecoveredIsFree(keyed, work.feed, now);
      if Recover(keyed.db, work.feed, now).Ok? {
        TakeKeepsInv(AfterRecover(keyed, work.feed, now), work, owner, now, token, s);
      }
    }
  }

  lemma RecoveredIsFree(w: World, feed: FeedKey, now: int)
    requires feed in w.db.leases && Recover(w.db, feed, now).Ok?
    ensures AfterRecover(w, feed, now).db.leases[feed] == FREE
  {
  }

  lemma PrepareKeepsInv(w: World, token: nat, resolved: Result<Access, Error>, latest: Option<int>, at: int,
        now: int, s: Settings)
    requires Inv(w, s) && s.Sound() && token in w.issued
    ensures Inv(AfterPrepare(w, token, resolved, latest, at, now, s), s)
  {
    hide RowOk, PageFits, Scanning, PageFor, TimeframeDelta, LeasesOk, RowsOk;
    var claim := w.issued[token];
    var v := AfterPrepare(w, token, resolved, latest, at, now, s);
    if Prepare(w.db, claim, resolved, latest, s.chosen, at, now).Ok? {
      GuardMeansBound(w, claim, token, at, s);
      var t := Guarded(w.db, claim, at).value;
      var d := TimeframeDelta(t.feed.timeframe).value;
      PreparedPageFits(claim.work.row, t, claim, resolved.value, latest, s, now);
      ScanningRowOk(claim.work.row, t, latest, d, now);
      ScanningKind(t, latest, d, now);
      assert Bound(v, claim.work.feed, token, s);
      assert v.db.leases == w.db.leases;
      hide Bound, Prepare, Guarded, Inv;
      Rebound(w, v, v.issued[token], Scanning(t, latest, d, now), s);
    }
  }

  lemma ScanningKind(t: Target, latest: Option<int>, delta: int, now: int)
    ensures Scanning(t, latest, delta, now).BackfillRow? == t.BackfillRow?
  {
  }

  lemma LeaseStepKeepsInv(w: World, token: nat, at: int, s: Settings)
    requires Inv(w, s) && s.Sound() && token in w.issued
    ensures Inv(w.(db := Heartbeat(w.db, w.issued[token], at, s.duration)), s)
    ensures Inv(w.(db := Release(w.db, w.issued[token], at)), s)
  {
    hide RowOk, PageFits;
    var claim := w.issued[token];
    var feed := claim.work.feed;
    if Holds(w.db, claim, at) {
      assert FeedOk(w, feed, s);
      var v := w.(db := Heartbeat(w.db, claim, at, s.duration));
      assert Bound(v, feed, token, s);
      hide Bound;
      OthersKeep(w, v, feed, s);
      OnlyFree(w, w.(db := Release(w.db, claim, at)), feed, s);
    }
  }

  /** Rows appear, and subscriptions are switched on and off, while workers run. */
  lemma AdministrationKeepsInv(w: World, row: RowId, t: Target, s: Settings)
    requires Inv(w, s) && RowOk(row, t)
    requires row in w.db.targets ==>
               w.db.targets[row].SubscriptionRow? && t.SubscriptionRow? && t == w.db.targets[row].(enabled := t.enabled)
    ensures Inv(w.(db := PutTarget(w.db, row, t)), s)
  {
    hide RowOk;
    var v := w.(db := PutTarget(w.db, row, t));
    assert RowsOk(v);
    forall g | g in v.db.leases
      ensures FeedOk(v, g, s)
    {
      assert FeedOk(w, g, s);
    }
  }

  lemma StepKeepsInv(w: World, step: Step, s: Settings)
    requires Inv(w, s) && s.Sound() && Possible(w, step)
    ensures Inv(Next(w, step, s), s)
  {
    ActKeepsInv(w, step, s);
    var v := Act(w, step, s);
    hide PageFits, RowOk, Act;
    forall g | g in v.db.leases
      ensures FeedOk(v.(clock := step.now), g, s)
    {
      assert FeedOk(v, g, s);
    }
  }

  lemma ActKeepsInv(w: World, step: Step, s: Settings)
    requires Inv(w, s) && s.Sound() && Possible(w, step)
    ensures Inv(Act(w, step, s), s)
  {
    hide Inv, AfterClaim, AfterPrepare, AfterSave, AfterComplete, AfterFail, AfterRecover, Heartbeat, Release;
    match step.action
    case Add(row, t) => AdministrationKeepsInv(w, row, t, s);
    case Toggle(row, enabled) =>
      RowIsOk(w, row, s);
      AdministrationKeepsInv(w, row, w.db.targets[row].(enabled := enabled), s);
    case DoClaim(work, owner, token) => ClaimKeepsInv(w, work, owner, step.at, token, s);
    case DoBeat(token) => LeaseStepKeepsInv(w, token, step.at, s);
    case DoRelease(token) => LeaseStepKeepsInv(w, token, step.at, s);
    case DoPrepare(token, resolved, latest) => PrepareKeepsInv(w, token, resolved, latest, step.at, step.now, s);
    case DoSave(token, points, resolved) => SaveKeepsInv(w, token, points, resolved, step.at, step.now, s);
    case DoComplete(token, resolved) => CompleteKeepsInv(w, token, resolved, step.at, step.now, s);
    case DoFail(token, failure) => FailKeepsInv(w, token, failure, step.at, step.now, s);
    case DoRecover(feed) => RecoverKeepsInv(w, feed, step.now, s);
  }

  lemma {:induction false} RunKeepsInv(w: World, steps: seq<Step>, s: Settings)
    requires Inv(w, s) && s.Sound() && PossibleRun(w, steps, s)
    ensures Inv(RunAll(w, steps, s), s)
    decreases |steps|
  {
    hide Inv, Next;
    if steps != [] {
      StepKeepsInv(w, steps[0], s);
      RunKeepsInv(Next(w, steps[0], s), steps[1..], s);
    }
  }
}
