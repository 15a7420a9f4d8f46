/** One claimed page from start to end (app/market_data/application/execute_page.py), while no other
    worker touches its rows. */
module PageExecution {
  import opened Wrappers
  import opened WorkRows
  import opened Leases
  import opened Pages
  import opened WorkerSafety

  datatype Outcome = PageSaved | JobCompleted | PageFailed | PageDiscarded | Cancelled | DatabaseError

  /** What the exchange request came to. */
  datatype Fetched = Points(points: seq<CandlePoint>) | Troubled(failure: PageFailure) | Interruption

  /** The transactions of an execution: preparing the page, saving it or completing the job, counting
      a failure, and giving the lease back. */
  datatype Call = Preparing | Writing | Failing | Releasing

  /** A transaction that ends in a database error. When the error came from the commit, the commit
      may have gone through all the same. */
  datatype Break = Break(call: Call, committed: bool)

  /** Everything an execution meets: access and newest candle when preparing, the response, access
      again when writing, its readings of the database clock, and the transaction the database
      breaks, if any: an execution ends with the first. */
  datatype Surroundings = Surroundings(
    resolved: Result<Access, Error>, latest: Option<int>, fetched: Fetched, resolvedAgain: Result<Access, Error>,
    clock: seq<int>, broken: Option<Break>)
  {
    predicate Sound() {
      |clock| == 7 && forall i, j :: 0 <= i < j < 7 ==> clock[i] <= clock[j]
    }

    /** The call raises a database error and nothing of it is kept. */
    predicate Undone(call: Call) { broken == Some(Break(call, false)) }

    /** The call commits, but raises a database error if it would have returned. */
    predicate Unheard(call: Call) { broken == Some(Break(call, true)) }

    function Unbroken(): Surroundings { this.(broken := None) }
  }

  const SAFE_CODES: set<string> := {
    "access_unavailable", "credentials_missing", "credentials_unreadable", "invalid_candles", "access_changed",
    "invalid_checkpoint"}

  function Classify(e: Error): PageFailure {
    if e.AccessError? then PageFailure(if e.code in SAFE_CODES then e.code else "configuration_error", false, 0)
    else PageFailure("internal_error", false, 0)
  }

  // ----- as a function of the tables -----

  function Abandoned(db: Db, claim: LeaseClaim, at: Surroundings, outcome: Outcome): (Db, Outcome)
    requires at.Sound()
  {
    if at.Undone(Releasing) then (db, DatabaseError)
    else (Release(db, claim, at.clock[6]), if at.Unheard(Releasing) then DatabaseError else outcome)
  }

  function GaveUp(db: Db, claim: LeaseClaim, failure: PageFailure, at: Surroundings): (Db, Outcome)
    requires at.Sound()
  {
    if at.Undone(Failing) then (db, DatabaseError)
    else
      match Fail(db, claim, failure, at.clock[4], at.clock[5])
      case Ok(failed) => (failed, if at.Unheard(Failing) then DatabaseError else PageFailed)
      case Err(_) => Abandoned(db, claim, at, PageDiscarded)
  }

  function Rejected(db: Db, claim: LeaseClaim, e: Error, at: Surroundings): (Db, Outcome)
    requires at.Sound()
  {
    if e == LeaseLost then Abandoned(db, claim, at, PageDiscarded) else GaveUp(db, claim, Classify(e), at)
  }

  function Completed(db: Db, page: PreparedPage, at: Surroundings): (Db, Outcome)
    requires at.Sound()
  {
    if at.Undone(Writing) then (db, DatabaseError)
    else
      match Complete(db, page, at.resolvedAgain, at.clock[2], at.clock[3])
      case Ok(done) => (done, if at.Unheard(Writing) then DatabaseError else JobCompleted)
      case Err(e) => Rejected(db, page.claim, e, at)
  }

  /** An unusable response is refused before the database is asked. */
  function Stored(db: Db, page: PreparedPage, points: seq<CandlePoint>, at: Surroundings): (Db, Outcome)
    requires at.Sound()
  {
    if at.Undone(Writing) && Usable(page, points) then (db, DatabaseError)
    else
      match Save(db, page, points, at.resolvedAgain, at.clock[2], at.clock[3])
      case Ok(saved) => (saved, if at.Unheard(Writing) then DatabaseError else PageSaved)
      case Err(e) => Rejected(db, page.claim, e, at)
  }

  /** What becomes of a prepared page. */
  function Carried(db: Db, page: PreparedPage, kind: WorkKind, at: Surroundings): (Db, Outcome)
    requires at.Sound()
  {
    if kind == Backfill && page.start == page.scanEnd then Completed(db, page, at)
    else
      match at.fetched
      case Interruption => Abandoned(db, page.claim, at, Cancelled)
      case Troubled(failure) => GaveUp(db, page.claim, failure, at)
      case Points(points) => Stored(db, page, points, at)
  }

  function Executed(db: Db, claim: LeaseClaim, chosen: Option<nat>, at: Surroundings): (Db, Outcome)
    requires at.Sound()
  {
    if at.Undone(Preparing) then (db, DatabaseError)
    else
      match Prepare(db, claim, at.resolved, at.latest, chosen, at.clock[0], at.clock[1])
      case Err(e) => Rejected(db, claim, e, at)
      case Ok((prepared, page)) =>
        if at.Unheard(Preparing) then (prepared, DatabaseError)
        else Carried(prepared, page, claim.work.row.kind, at)
  }

  // ----- as it runs -----

  class ExecuteMarketDataPage {
    const store: PageStore

    constructor (pages: PageStore)
      ensures store == pages
    {
      store := pages;
    }

    method Abandon(claim: LeaseClaim, at: Surroundings, outcome: Outcome) returns (ended: Outcome)
      requires at.Sound()
      modifies store.leases
      ensures (store.leases.Tables(), ended) == Abandoned(old(store.leases.Tables()), claim, at, outcome)
    {
      if at.Undone(Releasing) {
        return DatabaseError;
      }
      var _ := store.leases.GiveBack(claim, at.clock[6]);
      return if at.Unheard(Releasing) then DatabaseError else outcome;
    }

    method GiveUp(claim: LeaseClaim, failure: PageFailure, at: Surroundings) returns (outcome: Outcome)
      requires at.Sound()
      modifies store.leases
      ensures (store.leases.Tables(), outcome) == GaveUp(old(store.leases.Tables()), claim, failure, at)
    {
      if at.Undone(Failing) {
        return DatabaseError;
      }
      var failed := store.FailPage(claim, failure, at.clock[4], at.clock[5]);
      if failed.Some? {
        outcome := Abandon(claim, at, PageDiscarded);
        return;
      }
      return if at.Unheard(Failing) then DatabaseError else PageFailed;
    }

    method Reject(claim: LeaseClaim, e: Error, at: Surroundings) returns (outcome: Outcome)
      requires at.Sound()
      modifies store.leases
      ensures (store.leases.Tables(), outcome) == Rejected(old(store.leases.Tables()), claim, e, at)
    {
      if e == LeaseLost {
        outcome := Abandon(claim, at, PageDiscarded);
      } else {
        outcome := GiveUp(claim, Classify(e), at);
      }
    }

    method Finish(page: PreparedPage, at: Surroundings) returns (outcome: Outcome)
      requires at.Sound()
      modifies store.leases
      ensures (store.leases.Tables(), outcome) == Completed(old(store.leases.Tables()), page, at)
    {
      hide Complete, Fail, Release;
      if at.Undone(Writing) {
        return DatabaseError;
      }
      var failed := store.CompleteJob(page, at.resolvedAgain, at.clock[2], at.clock[3]);
      if failed.Some? {
        outcome := Reject(page.claim, failed.value, at);
        return;
      }
      return if at.Unheard(Writing) then DatabaseError else JobCompleted;
    }

    method Keep(page: PreparedPage, points: seq<CandlePoint>, at: Surroundings) returns (outcome: Outcome)
      requires at.Sound()
      modifies store.leases
      ensures (store.leases.Tables(), outcome) == Stored(old(store.leases.Tables()), page, points, at)
    {
      hide Save, Fail, Release;
      if at.Undone(Writing) && Usable(page, points) {
        return DatabaseError;
      }
      var saved := store.SavePage(page, points, at.resolvedAgain, at.clock[2], at.clock[3]);
      if saved.Err? {
        outcome := Reject(page.claim, saved.error, at);
        return;
      }
      return if at.Unheard(Writing) then DatabaseError else PageSaved;
    }

    method Execute(claim: LeaseClaim, at: Surroundings) returns (outcome: Outcome)
      requires at.Sound()
      modifies store.leases
      ensures (store.leases.Tables(), outcome) == Executed(old(store.leases.Tables()), claim, store.pageSize, at)
    {
      hide Prepare, Complete, Save, Fail, Release;
      if at.Undone(Preparing) {
        return DatabaseError;
      }
      var prepared := store.PreparePage(claim, at.resolved, at.latest, at.clock[0], at.clock[1]);
      if prepared.Err? {
        outcome := Reject(claim, prepared.error, at);
        return;
      }
      if at.Unheard(Preparing) {
        return DatabaseError;
      }
      var page := prepared.value;
      if claim.work.row.kind == Backfill && page.start == page.scanEnd {
        outcome := Finish(page, at);
        return;
      }
      match at.fetched
      case Interruption => outcome := Abandon(page.claim, at, Cancelled);
      case Troubled(failure) => outcome := GiveUp(page.claim, failure, at);
      case Points(points) => outcome := Keep(page, points, at);
    }
  }

  /** How an undisturbed execution of a prepared page ends, by what it met: cancelled if it was
      interrupted; failed if the exchange failed, or the response was unusable, unless the lease was lost
      by then; saved, or completed at the end of a job, exactly if the write went through. */
  lemma OutcomeFollowsItsCause(db: Db, page: PreparedPage, kind: WorkKind, at: Surroundings)
    requires at.Sound() && at.broken.None? && kind == page.claim.work.row.kind
    ensures var outcome := Carried(db, page, kind, at).1;
            var owned := Guarded(db, page.claim, at.clock[2]).Ok? && at.resolvedAgain == Ok(page.access);
            if kind == Backfill && page.start == page.scanEnd then outcome == JobCompleted <==> owned
            else match at.fetched
                 case Interruption => outcome == Cancelled
                 case Troubled(_) => outcome == (if Guarded(db, page.claim, at.clock[4]).Ok? then PageFailed else PageDiscarded)
                 case Points(points) =>
                   && (outcome == PageSaved <==> Usable(page, points) && owned)
                   && (!Usable(page, points) ==>
                         outcome == if Guarded(db, page.claim, at.clock[4]).Ok? then PageFailed else PageDiscarded)
  {
    hide Usable, Saved, FailedOnce;
  }

  /** An error of the application, as against one of the exchange, is never retried: it stops the
      target. A lost lease is none of the target's errors. */
  lemma ErrorsAreFinal(db: Db, claim: LeaseClaim, e: Error, at: Surroundings)
    requires at.Sound() && Find(db, claim.work).Some?
    ensures var (db', outcome) := Rejected(db, claim, e, at);
            && Find(db', claim.work).Some?
            && (outcome == PageFailed ==> e != LeaseLost && !Find(db', claim.work).value.Active())
            && (e == LeaseLost ==> db'.targets == db.targets)
  {
  }

  // ----- what every execution keeps -----

  lemma SameOwner(db: Db, claim: LeaseClaim, next: Option<int>, now: int)
    ensures Holds(db, claim.(nextFetchAt := next), now) == Holds(db, claim, now)
  {
  }

  lemma PreparingKeepsLease(db: Db, claim: LeaseClaim, chosen: Option<nat>, at: Surroundings, later: int)
    requires at.Sound()
    ensures var p := Prepare(db, claim, at.resolved, at.latest, chosen, at.clock[0], at.clock[1]);
            p.Ok? ==> p.value.1.claim == claim.(nextFetchAt := p.value.1.claim.nextFetchAt)
                      && Holds(p.value.0, claim, later) == Holds(db, claim, later)
  {
  }

  /** The execution ended in a database error, of a call that left the lease alone. */
  predicate Kept(at: Surroundings, outcome: Outcome) {
    outcome == DatabaseError && at.broken.Some? && !(at.broken.value.committed && at.broken.value.call != Preparing)
  }

  predicate LetGo(db: Db, claim: LeaseClaim, at: Surroundings, end: (Db, Outcome), later: int) {
    Holds(end.0, claim, later) <==> Kept(at, end.1) && Holds(db, claim, later)
  }

  lemma RejectionLetsGo(db: Db, claim: LeaseClaim, e: Error, failure: PageFailure, at: Surroundings, outcome: Outcome,
        later: int)
    requires at.Sound() && later >= at.clock[6] && outcome != DatabaseError
    ensures LetGo(db, claim, at, Abandoned(db, claim, at, outcome), later)
    ensures LetGo(db, claim, at, GaveUp(db, claim, failure, at), later)
    ensures LetGo(db, claim, at, Rejected(db, claim, e, at), later)
  {
    hide FailedOnce;
  }

  lemma WritingLetsGo(db: Db, page: PreparedPage, points: seq<CandlePoint>, at: Surroundings, later: int)
    requires at.Sound() && later >= at.clock[6] && !at.Unheard(Preparing)
    ensures LetGo(db, page.claim, at, Completed(db, page, at), later)
    ensures LetGo(db, page.claim, at, Stored(db, page, points, at), later)
  {
    hide Saved, Usable, Rejected;
    var (done, kept) := (Complete(db, page, at.resolvedAgain, at.clock[2], at.clock[3]),
                         Save(db, page, points, at.resolvedAgain, at.clock[2], at.clock[3]));
    if done.Err? {
      RejectionLetsGo(db, page.claim, done.error, Classify(done.error), at, PageSaved, later);
    }
    if kept.Err? {
      RejectionLetsGo(db, page.claim, kept.error, Classify(kept.error), at, PageSaved, later);
    }
  }

  lemma PreparedLetsGo(db: Db, page: PreparedPage, kind: WorkKind, at: Surroundings, later: int)
    requires at.Sound() && later >= at.clock[6] && !at.Unheard(Preparing)
    ensures LetGo(db, page.claim, at, Carried(db, page, kind, at), later)
  {
    hide LetGo, Abandoned, GaveUp, Completed, Stored;
    WritingLetsGo(db, page, [], at, later);
    match at.fetched
    case Interruption => RejectionLetsGo(db, page.claim, LeaseLost, Classify(LeaseLost), at, Cancelled, later);
    case Troubled(failure) => RejectionLetsGo(db, page.claim, LeaseLost, failure, at, Cancelled, later);
    case Points(points) => WritingLetsGo(db, page, points, at, later);
  }

  /** However it ends, an execution leaves its lease, unless the database broke it: its claim holds
      the lease afterwards exactly if it held on to it before, and the execution ended in a database
      error of a call that was rolled back or had only prepared the page. */
  lemma ExecutionLetsGo(db: Db, claim: LeaseClaim, chosen: Option<nat>, at: Surroundings, later: int)
    requires at.Sound() && later >= at.clock[6]
    ensures LetGo(db, claim, at, Executed(db, claim, chosen, at), later)
  {
    PreparingKeepsLease(db, claim, chosen, at, later);
    hide Prepare, Carried;
    if !at.Undone(Preparing) {
      match Prepare(db, claim, at.resolved, at.latest, chosen, at.clock[0], at.clock[1])
      case Err(e) =>
      case Ok((prepared, page)) =>
        if !at.Unheard(Preparing) {
          PreparedLetsGo(prepared, page, claim.work.row.kind, at, later);
          SameOwner(prepared, claim, page.claim.nextFetchAt, later);
          SameOwner(Carried(prepared, page, claim.work.row.kind, at).0, claim, page.claim.nextFetchAt, later);
        }
    }
  }

  /** Preparing a backfill page reads only. */
  lemma BackfillPrepareReads(db: Db, claim: LeaseClaim, chosen: Option<nat>, at: Surroundings)
    requires at.Sound() && claim.work.row.kind == Backfill
    ensures var p := Prepare(db, claim, at.resolved, at.latest, chosen, at.clock[0], at.clock[1]);
            p.Ok? ==> p.value.0 == db && p.value.1.claim == claim
  {
  }

  /** What an outcome says about the job of a claim. */
  predicate Told(db: Db, claim: LeaseClaim, end: (Db, Outcome))
    requires claim.work.row.kind == Backfill
  {
    var (db', outcome) := end;
    Find(db, claim.work).Some? ==>
      && Find(db', claim.work).Some?
      && var (t, t') := (Find(db, claim.work).value, Find(db', claim.work).value);
      && (outcome == PageSaved ==> Cursor(t') > Cursor(t) && t'.failures == 0)
      && (outcome != PageSaved ==> t'.nextFetchAt == t.nextFetchAt && Cursor(t') == Cursor(t))
      && (outcome == PageFailed <==> t'.failures > t.failures)
      && (outcome == JobCompleted <==> t'.status == Succeeded && t.status != Succeeded)
      && (outcome == PageDiscarded || outcome == Cancelled ==> t' == t)
  }

  lemma RejectionTells(db: Db, claim: LeaseClaim, e: Error, failure: PageFailure, at: Surroundings, outcome: Outcome)
    requires at.Sound() && at.broken.None? && claim.work.row.kind == Backfill
    requires outcome == PageDiscarded || outcome == Cancelled
    ensures Told(db, claim, Abandoned(db, claim, at, outcome))
    ensures Told(db, claim, GaveUp(db, claim, failure, at))
    ensures Told(db, claim, Rejected(db, claim, e, at))
  {
  }

  lemma CompletionTells(db: Db, page: PreparedPage, at: Surroundings)
    requires at.Sound() && at.broken.None? && page.claim.work.row.kind == Backfill
    ensures Told(db, page.claim, Completed(db, page, at))
  {
    var done := Complete(db, page, at.resolvedAgain, at.clock[2], at.clock[3]);
    hide Rejected;
    if done.Err? {
      RejectionTells(db, page.claim, done.error, Classify(done.error), at, Cancelled);
    }
  }

  /** A page that is not the empty last one reaches past the cursor it was prepared at. */
  predicate Advances(db: Db, page: PreparedPage)
    requires page.claim.work.row.kind == Backfill
  {
    Find(db, page.claim.work).Some? ==> page.end > Cursor(Find(db, page.claim.work).value)
  }

  lemma SavingTells(db: Db, page: PreparedPage, points: seq<CandlePoint>, at: Surroundings)
    requires at.Sound() && at.broken.None? && page.claim.work.row.kind == Backfill && Advances(db, page)
    ensures Told(db, page.claim, Stored(db, page, points, at))
  {
    var kept := Save(db, page, points, at.resolvedAgain, at.clock[2], at.clock[3]);
    hide Rejected, Usable;
    if kept.Err? {
      RejectionTells(db, page.claim, kept.error, Classify(kept.error), at, Cancelled);
    }
  }

  lemma PageAdvances(t: Target, claim: LeaseClaim, access: Access, latest: Option<int>, delta: int, chosen: Option<nat>,
        now: int)
    requires t.BackfillRow? && delta > 0 && (chosen.Some? ==> chosen.value >= 2)
    ensures var page := PageFor(t, claim, access, latest, delta, chosen, now);
            page.Ok? && page.value.start != page.value.scanEnd ==> page.value.end > Cursor(t)
  {
    var size := PageSize(chosen, access.exchange);
    assert size * delta >= 2 * delta;
  }

  lemma PreparedAdvances(db: Db, claim: LeaseClaim, chosen: Option<nat>, at: Surroundings)
    requires at.Sound() && claim.work.row.kind == Backfill && (chosen.Some? ==> chosen.value >= 2)
    ensures var p := Prepare(db, claim, at.resolved, at.latest, chosen, at.clock[0], at.clock[1]);
            p.Ok? && p.value.1.start != p.value.1.scanEnd ==> Advances(db, p.value.1)
  {
    BackfillPrepareReads(db, claim, chosen, at);
    hide PageFor, TimeframeDelta;
    var p := Prepare(db, claim, at.resolved, at.latest, chosen, at.clock[0], at.clock[1]);
    if p.Ok? {
      PageAdvances(Find(db, claim.work).value, claim, at.resolved.value, at.latest,
            TimeframeDelta(claim.work.feed.timeframe).value, chosen, at.clock[1]);
    }
  }

  lemma UnbrokenTells(db: Db, claim: LeaseClaim, chosen: Option<nat>, at: Surroundings)
    requires at.Sound() && at.broken.None? && claim.work.row.kind == Backfill && (chosen.Some? ==> chosen.value >= 2)
    ensures Told(db, claim, Executed(db, claim, chosen, at))
  {
    var p := Prepare(db, claim, at.resolved, at.latest, chosen, at.clock[0], at.clock[1]);
    BackfillPrepareReads(db, claim, chosen, at);
    PreparedAdvances(db, claim, chosen, at);
    hide Prepare, Abandoned, Rejected, GaveUp, Completed, Stored, Told, Advances;
    match p
    case Err(e) => RejectionTells(db, claim, e, Classify(e), at, Cancelled);
    case Ok((prepared, page)) =>
      if page.start == page.scanEnd {
        CompletionTells(db, page, at);
      } else {
        match at.fetched
        case Interruption => RejectionTells(db, claim, LeaseLost, Classify(LeaseLost), at, Cancelled);
        case Troubled(failure) => RejectionTells(db, claim, LeaseLost, failure, at, Cancelled);
        case Points(points) => SavingTells(db, page, points, at);
      }
  }

  /** A broken call is whole or nothing: what the execution leaves is what it would have left without
      the error, or what was there before. */
  predicate WholeOrNothing(db: Db, at: Surroundings, end: (Db, Outcome), unbroken: (Db, Outcome)) {
    if end.1 != DatabaseError then end == unbroken
    else end.0 == (if Kept(at, end.1) then db else unbroken.0)
  }

  lemma RejectionIsWhole(db: Db, claim: LeaseClaim, e: Error, failure: PageFailure, at: Surroundings)
    requires at.Sound()
    ensures WholeOrNothing(db, at, Abandoned(db, claim, at, Cancelled), Abandoned(db, claim, at.Unbroken(), Cancelled))
    ensures WholeOrNothing(db, at, GaveUp(db, claim, failure, at), GaveUp(db, claim, failure, at.Unbroken()))
    ensures WholeOrNothing(db, at, Rejected(db, claim, e, at), Rejected(db, claim, e, at.Unbroken()))
  {
    hide Fail, Release;
  }

  lemma WritingIsWhole(db: Db, page: PreparedPage, points: seq<CandlePoint>, at: Surroundings)
    requires at.Sound() && !at.Unheard(Preparing)
    ensures WholeOrNothing(db, at, Completed(db, page, at), Completed(db, page, at.Unbroken()))
    ensures WholeOrNothing(db, at, Stored(db, page, points, at), Stored(db, page, points, at.Unbroken()))
  {
    hide Save, Complete, Rejected;
    var (done, kept) := (Complete(db, page, at.resolvedAgain, at.clock[2], at.clock[3]),
                         Save(db, page, points, at.resolvedAgain, at.clock[2], at.clock[3]));
    if done.Err? {
      RejectionIsWhole(db, page.claim, done.error, Classify(done.error), at);
    }
    if kept.Err? {
      RejectionIsWhole(db, page.claim, kept.error, Classify(kept.error), at);
    }
  }

  lemma CarriedIsWhole(db: Db, page: PreparedPage, kind: WorkKind, at: Surroundings)
    requires at.Sound() && !at.Unheard(Preparing)
    ensures WholeOrNothing(db, at, Carried(db, page, kind, at), Carried(db, page, kind, at.Unbroken()))
  {
    hide WholeOrNothing, Abandoned, GaveUp, Completed, Stored;
    WritingIsWhole(db, page, if at.fetched.Points? then at.fetched.points else [], at);
    match at.fetched
    case Interruption => RejectionIsWhole(db, page.claim, LeaseLost, Classify(LeaseLost), at);
    case Troubled(failure) => RejectionIsWhole(db, page.claim, LeaseLost, failure, at);
    case Points(points) =>
  }

  lemma ExecutionIsWhole(db: Db, claim: LeaseClaim, chosen: Option<nat>, at: Surroundings)
    requires at.Sound() && claim.work.row.kind == Backfill
    ensures WholeOrNothing(db, at, Executed(db, claim, chosen, at), Executed(db, claim, chosen, at.Unbroken()))
  {
    BackfillPrepareReads(db, claim, chosen, at);
    hide Prepare, Carried;
    if !at.Undone(Preparing) {
      match Prepare(db, claim, at.resolved, at.latest, chosen, at.clock[0], at.clock[1])
      case Err(e) =>
      case Ok((prepared, page)) =>
        if !at.Unheard(Preparing) {
          CarriedIsWhole(db, page, claim.work.row.kind, at);
        }
    }
  }

  /** What the outcome of a backfill execution says about the job: the cursor advanced exactly if a
      page was saved, a failure was counted exactly if the page failed, and an execution that was
      discarded or cancelled left the job as it was. After a database error everything is as it was
      before, or as the execution would have left it without the error. */
  lemma OutcomeTellsProgress(db: Db, claim: LeaseClaim, chosen: Option<nat>, at: Surroundings)
    requires at.Sound() && claim.work.row.kind == Backfill && (chosen.Some? ==> chosen.value >= 2)
    ensures WholeOrNothing(db, at, Executed(db, claim, chosen, at), Executed(db, claim, chosen, at.Unbroken()))
    ensures Told(db, claim, Executed(db, claim, chosen, at.Unbroken()))
    ensures Executed(db, claim, chosen, at).1 != DatabaseError ==> Told(db, claim, Executed(db, claim, chosen, at))
  {
    ExecutionIsWhole(db, claim, chosen, at);
    UnbrokenTells(db, claim, chosen, at.Unbroken());
  }
}
