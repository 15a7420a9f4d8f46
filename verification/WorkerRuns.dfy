/** Any number of workers over the shared tables: every interleaving of their transactions, with a
    clock that never runs back and tokens that are never reused. A crashed worker takes no further
    steps. */
module WorkerRuns {
  import opened Wrappers
  import opened WorkRows
  import opened Leases
  import opened Pages

  datatype Settings = Settings(duration: int, chosen: Option<nat>) {
    predicate Sound() {
      SECOND <= duration <= 3600 * SECOND && (chosen.Some? ==> 2 <= chosen.value <= 950)
    }
  }

  datatype SavedPage = SavedPage(page: PreparedPage, points: seq<CandlePoint>)

  /** What happened to one row: the pages saved for it, and how often a failure was charged to it. */
  datatype History = History(pages: seq<SavedPage>, strikes: nat)

  /** `issued` and `pages` hold, for each token, the claim its worker now uses and the page it last
      prepared; `commits` the token of every guarded write that went through. */
  datatype World = World(
    db: Db, clock: int, issued: map<nat, LeaseClaim>, pages: map<nat, PreparedPage>,
    history: map<RowId, History>, commits: seq<nat>)

  datatype Action =
    | Add(row: RowId, target: Target)
    | Toggle(row: RowId, enabled: bool)
    | DoClaim(work: WorkRef, owner: nat, token: nat)
    | DoBeat(token: nat)
    | DoRelease(token: nat)
    | DoPrepare(token: nat, resolved: Result<Access, Error>, latest: Option<int>)
    | DoSave(token: nat, points: seq<CandlePoint>, resolved: Result<Access, Error>)
    | DoComplete(token: nat, resolved: Result<Access, Error>)
    | DoFail(token: nat, failure: PageFailure)
    | DoRecover(feed: FeedKey)

  /** A transaction reads the clock at `at`, and some again at `now`. */
  datatype Step = Step(at: int, now: int, action: Action)

  const NO_HISTORY: History := History([], 0)

  function HistoryOf(w: World, row: RowId): History {
    if row in w.history then w.history[row] else NO_HISTORY
  }

  /** A row as it is created: nothing fetched, nothing failed. */
  predicate New(row: RowId, t: Target) {
    && t.nextFetchAt.None? && t.failures == 0
    && (row.kind == Backfill <==> t.BackfillRow?)
    && (t.BackfillRow? ==> t.fromTime <= t.toTime && t.status == Queued)
    && (t.SubscriptionRow? ==> t.scanTo.None? && t.blockedReason.None?)
  }

  predicate Finishing(page: PreparedPage) {
    page.claim.work.row.kind == Backfill && page.start == page.scanEnd
  }

  /** The order of calls is that of an execution: a page is saved or completed only after it was
      prepared, and completed exactly if it is a backfill's empty last page. */
  predicate Possible(w: World, step: Step) {
    && w.clock <= step.at <= step.now
    && match step.action
       case Add(row, t) => row !in w.db.targets && New(row, t)
       case Toggle(row, _) => row in w.db.targets && w.db.targets[row].SubscriptionRow?
       case DoClaim(_, _, token) => token !in w.issued
       case DoBeat(token) => token in w.issued
       case DoRelease(token) => token in w.issued
       case DoPrepare(token, _, _) => token in w.issued
       case DoSave(token, _, _) => token in w.pages && !Finishing(w.pages[token])
       case DoComplete(token, _) => token in w.pages && Finishing(w.pages[token])
       case DoFail(token, _) => token in w.issued
       case DoRecover(feed) => feed in w.db.leases && Expired(w.db, feed, step.at)
  }

  // ----- steps -----

  function Struck(w: World, row: RowId): map<RowId, History> {
    w.history[row := HistoryOf(w, row).(strikes := HistoryOf(w, row).strikes + 1)]
  }

  function AfterRecover(w: World, feed: FeedKey, now: int): World
    requires feed in w.db.leases
  {
    match Recover(w.db, feed, now)
    case Err(_) => w
    case Ok(db) =>
      var lease := w.db.leases[feed];
      var row := RowId(lease.kind.value, lease.workId.value);
      var target := Find(w.db, WorkRef(feed, row));
      w.(db := db, history := if target.Some? && target.value.Active() then Struck(w, row) else w.history)
  }

  function AfterTake(w: World, work: WorkRef, owner: nat, now: int, token: nat, s: Settings): World {
    var (db, claim) := TakeIfDue(w.db, work, owner, now, token, s.duration);
    w.(db := db, issued := if claim.Some? then w.issued[token := claim.value] else w.issued)
  }

  function AfterClaim(w: World, work: WorkRef, owner: nat, now: int, token: nat, s: Settings): World {
    var keyed := w.(db := WithLeaseRow(w.db, work.feed));
    var lease := keyed.db.leases[work.feed];
    if lease.token.None? then AfterTake(keyed, work, owner, now, token, s)
    else if lease.until.None? || lease.until.value > now then keyed
    else if Recover(keyed.db, work.feed, now).Err? then w
    else AfterTake(AfterRecover(keyed, work.feed, now), work, owner, now, token, s)
  }

  function AfterPrepare(w: World, token: nat, resolved: Result<Access, Error>, latest: Option<int>, at: int,
        now: int, s: Settings): World
    requires token in w.issued
  {
    match Prepare(w.db, w.issued[token], resolved, latest, s.chosen, at, now)
    case Err(_) => w
    case Ok((db, page)) =>
      w.(db := db, issued := w.issued[token := page.claim], pages := w.pages[token := page], commits := w.commits + [token])
  }

  function AfterSave(w: World, token: nat, points: seq<CandlePoint>, resolved: Result<Access, Error>, at: int, now: int): World
    requires token in w.pages
  {
    var page := w.pages[token];
    match Save(w.db, page, points, resolved, at, now)
    case Err(_) => w
    case Ok(db) =>
      var row := page.claim.work.row;
      var h := HistoryOf(w, row);
      w.(db := db, history := w.history[row := h.(pages := h.pages + [SavedPage(page, points)])],
            commits := w.commits + [token])
  }

  function AfterComplete(w: World, token: nat, resolved: Result<Access, Error>, at: int, now: int): World
    requires token in w.pages
  {
    match Complete(w.db, w.pages[token], resolved, at, now)
    case Err(_) => w
    case Ok(db) => w.(db := db, commits := w.commits + [token])
  }

  function AfterFail(w: World, token: nat, failure: PageFailure, at: int, now: int): World
    requires token in w.issued
  {
    match Fail(w.db, w.issued[token], failure, at, now)
    case Err(_) => w
    case Ok(db) => w.(db := db, history := Struck(w, w.issued[token].work.row), commits := w.commits + [token])
  }

  function Act(w: World, step: Step, s: Settings): World
    requires Possible(w, step)
  {
    match step.action
    case Add(row, t) => w.(db := PutTarget(w.db, row, t))
    case Toggle(row, enabled) => w.(db := PutTarget(w.db, row, w.db.targets[row].(enabled := enabled)))
    case DoClaim(work, owner, token) => AfterClaim(w, work, owner, step.at, token, s)
    case DoBeat(token) => w.(db := Heartbeat(w.db, w.issued[token], step.at, s.duration))
    case DoRelease(token) => w.(db := Release(w.db, w.issued[token], step.at))
    case DoPrepare(token, resolved, latest) => AfterPrepare(w, token, resolved, latest, step.at, step.now, s)
    case DoSave(token, points, resolved) => AfterSave(w, token, points, resolved, step.at, step.now)
    case DoComplete(token, resolved) => AfterComplete(w, token, resolved, step.at, step.now)
    case DoFail(token, failure) => AfterFail(w, token, failure, step.at, step.now)
    case DoRecover(feed) => AfterRecover(w, feed, step.now)
  }

  function Next(w: World, step: Step, s: Settings): World
    requires Possible(w, step)
  {
    Act(w, step, s).(clock := step.now)
  }

  /** The claim step is the claim transaction. */
  lemma ClaimStepIsClaim(w: World, work: WorkRef, owner: nat, now: int, token: nat, s: Settings)
    ensures AfterClaim(w, work, owner, now, token, s).db == Claim(w.db, work, owner, now, token, s.duration).0
    ensures match Claim(w.db, work, owner, now, token, s.duration).1
            case Ok(Some(claim)) => AfterClaim(w, work, owner, now, token, s).issued == w.issued[token := claim]
            case _ => AfterClaim(w, work, owner, now, token, s).issued == w.issued
  {
    hide Find, Interrupted, Started;
  }

  /** Recovering a batch of leases is recovering them one by one. */
  function RecoverEach(w: World, feeds: seq<FeedKey>, clock: nat -> int): World
    requires forall i :: 0 <= i < |feeds| ==> feeds[i] in w.db.leases
    ensures RecoverEach(w, feeds, clock).db.leases.Keys == w.db.leases.Keys
  {
    if feeds == [] then w
    else AfterRecover(RecoverEach(w, feeds[..|feeds| - 1], clock), feeds[|feeds| - 1], clock(|feeds| - 1))
  }

  lemma {:induction false} BatchIsOneByOne(w: World, feeds: seq<FeedKey>, clock: nat -> int)
    requires forall i :: 0 <= i < |feeds| ==> feeds[i] in w.db.leases
    ensures RecoverAll(w.db, feeds, clock).Ok? ==> RecoverEach(w, feeds, clock).db == RecoverAll(w.db, feeds, clock).value
  {
    hide Recover;
    if feeds != [] {
      BatchIsOneByOne(w, feeds[..|feeds| - 1], clock);
    }
  }

  // ----- runs -----

  predicate PossibleRun(w: World, steps: seq<Step>, s: Settings)
    decreases |steps|
  {
    steps == [] || (Possible(w, steps[0]) && PossibleRun(Next(w, steps[0], s), steps[1..], s))
  }

  function RunAll(w: World, steps: seq<Step>, s: Settings): World
    requires PossibleRun(w, steps, s)
    decreases |steps|
  {
    if steps == [] then w else RunAll(Next(w, steps[0], s), steps[1..], s)
  }

  function Start(clock: int): World { World(Db(map[], map[]), clock, map[], map[], map[], []) }
}
