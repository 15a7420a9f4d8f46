/** Backfill jobs lose nothing between pages and end after a bounded number of pages and failures,
    whatever the workers do. */
module WorkerProgress {
  import opened Wrappers
  import opened WorkRows
  import opened Leases
  import opened Pages
  import opened WorkerRuns
  import opened WorkerSafety
  import Arithmetic

  // ----- how one row and its history can move -----

  predicate SameRange(t: Target, u: Target) {
    && t.BackfillRow? && u.BackfillRow? && u.feed == t.feed
    && u.fromTime == t.fromTime && u.toTime == t.toTime
  }

  /** Nothing fetched, nothing charged. */
  predicate Idle(t: Target, h: History, u: Target, g: History) {
    SameRange(t, u) && u.nextFetchAt == t.nextFetchAt && u.failures == t.failures && g == h
    && u.Active() == t.Active() && (u.status == Succeeded <==> t.status == Succeeded)
  }

  /** A failure or an interruption is charged: the third one in a row stops the job. */
  predicate Charged(t: Target, h: History, u: Target, g: History) {
    SameRange(t, u) && t.Active() && u.nextFetchAt == t.nextFetchAt && u.failures == t.failures + 1
    && u.status != Succeeded && g == h.(strikes := h.strikes + 1)
  }

  predicate Finished(t: Target, h: History, u: Target, g: History) {
    SameRange(t, u) && t.Active() && u.nextFetchAt == t.nextFetchAt && Cursor(t) == t.toTime
    && u.status == Succeeded && u.failures == 0 && g == h
  }

  predicate Advanced(t: Target, h: History, u: Target, g: History, s: Settings) {
    && SameRange(t, u) && t.Active() && u.failures == 0 && u.status == t.status
    && |g.pages| == |h.pages| + 1 && g.pages[..|h.pages|] == h.pages && g.strikes == h.strikes
    && var saved := g.pages[|h.pages|];
    && PageFits(t, saved.page, s) && Cursor(t) < t.toTime && Usable(saved.page, saved.points)
    && u.nextFetchAt == Some(saved.page.end)
  }

  /** A subscription's scan stands still. */
  predicate Rests(t: Target, h: History, u: Target, g: History)
    requires t.SubscriptionRow? && u.SubscriptionRow?
  {
    u.nextFetchAt == t.nextFetchAt && u.scanTo == t.scanTo && g.pages == h.pages
  }

  /** A subscription without a checkpoint starts a scan. */
  predicate Begins(t: Target, h: History, u: Target, g: History)
    requires t.SubscriptionRow? && u.SubscriptionRow?
  {
    t.nextFetchAt.None? && t.scanTo.None? && u.nextFetchAt.Some? && u.scanTo.Some? && g.pages == h.pages
  }

  /** A page is saved: the scan is over with the page that reaches its end, and else stands at the
      end of the page. */
  predicate Scans(t: Target, h: History, u: Target, g: History, s: Settings)
    requires t.SubscriptionRow? && u.SubscriptionRow?
  {
    && |g.pages| == |h.pages| + 1 && g.pages[..|h.pages|] == h.pages
    && var page := g.pages[|h.pages|].page;
    && PageFits(t, page, s)
    && u.nextFetchAt == (if Closes(page) then None else Some(page.end))
    && u.scanTo == (if Closes(page) then None else t.scanTo)
  }

  /** The page reaches the end of its scan. */
  predicate Closes(page: PreparedPage) { page.end == page.scanEnd }

  predicate PollMove(t: Target, h: History, u: Target, g: History, s: Settings) {
    && t.SubscriptionRow? && u.SubscriptionRow? && u.feed == t.feed
    && (Rests(t, h, u, g) || Begins(t, h, u, g) || Scans(t, h, u, g, s))
  }

  predicate RowMove(t: Target, h: History, u: Target, g: History, s: Settings) {
    if t.SubscriptionRow? then PollMove(t, h, u, g, s)
    else Idle(t, h, u, g) || Charged(t, h, u, g) || Finished(t, h, u, g) || Advanced(t, h, u, g, s)
  }

  predicate Moves(w: World, v: World, s: Settings) {
    && v.db.targets.Keys == w.db.targets.Keys && v.history.Keys <= w.history.Keys + w.db.targets.Keys
    && forall row :: row in w.db.targets ==>
                       RowMove(w.db.targets[row], HistoryOf(w, row), v.db.targets[row], HistoryOf(v, row), s)
  }

  lemma OnlyRowMoves(w: World, v: World, row: RowId, t: Target, h: History, s: Settings)
    requires row in w.db.targets && v.db.targets == w.db.targets[row := t]
    requires v.history == w.history[row := h] || (v.history == w.history && h == HistoryOf(w, row))
    requires RowMove(w.db.targets[row], HistoryOf(w, row), t, h, s)
    ensures Moves(w, v, s)
  {
  }

  lemma NothingMoves(w: World, v: World, s: Settings)
    requires v.db.targets == w.db.targets && v.history == w.history
    ensures Moves(w, v, s)
  {
  }

  lemma RecoverMoves(w: World, feed: FeedKey, now: int, s: Settings)
    requires Inv(w, s) && feed in w.db.leases
    ensures Moves(w, AfterRecover(w, feed, now), s)
  {
    hide PageFits, RetryDelay;
    assert FeedOk(w, feed, s);
    var lease := w.db.leases[feed];
    var v := AfterRecover(w, feed, now);
    if lease != FREE {
      var row := RowId(lease.kind.value, lease.workId.value);
      var t := Find(w.db, WorkRef(feed, row)).value;
      hide LeasesOk, Bound, FeedOk;
      if t.Active() {
        var h := HistoryOf(w, row);
        assert RowOk(row, t);
        assert RowMove(t, h, Interrupted(t, row.id, now), h.(strikes := h.strikes + 1), s);
        hide RowMove, Interrupted, RowsOk;
        OnlyRowMoves(w, v, row, Interrupted(t, row.id, now), h.(strikes := h.strikes + 1), s);
      } else {
        NothingMoves(w, v, s);
      }
    } else {
      NothingMoves(w, v, s);
    }
  }

  lemma TakeMoves(w: World, work: WorkRef, owner: nat, now: int, token: nat, s: Settings)
    ensures Moves(w, AfterTake(w, work, owner, now, token, s), s)
  {
  }

  lemma SaveScans(t: Target, h: History, page: PreparedPage, points: seq<CandlePoint>, now: int, s: Settings)
    requires t.SubscriptionRow? && PageFits(t, page, s)
    ensures Scans(t, h, Saved(t, page, now), h.(pages := h.pages + [SavedPage(page, points)]), s)
  {
  }

  lemma SaveMoves(w: World, token: nat, points: seq<CandlePoint>, resolved: Result<Access, Error>, at: int, now: int,
        s: Settings)
    requires Inv(w, s) && token in w.pages && !Finishing(w.pages[token])
    ensures Moves(w, AfterSave(w, token, points, resolved, at, now), s)
  {
    hide PageFits, Usable, LeasesOk, RowsOk, Guarded;
    var page := w.pages[token];
    var v := AfterSave(w, token, points, resolved, at, now);
    if Save(w.db, page, points, resolved, at, now).Ok? {
      GuardMeansBound(w, page.claim, token, at, s);
      var t := Guarded(w.db, page.claim, at).value;
      var row := page.claim.work.row;
      var h := HistoryOf(w, row);
      var g := h.(pages := h.pages + [SavedPage(page, points)]);
      if t.BackfillRow? {
        FinishingMeansFetched(t, page, s);
        assert Advanced(t, h, Saved(t, page, now), g, s);
      } else {
        SaveScans(t, h, page, points, now, s);
      }
      hide RowMove, Saved, Bound, RowOk;
      OnlyRowMoves(w, v, row, Saved(t, page, now), g, s);
    } else {
      NothingMoves(w, v, s);
    }
  }

  lemma CompleteMoves(w: World, token: nat, resolved: Result<Access, Error>, at: int, now: int, s: Settings)
    requires Inv(w, s) && token in w.pages && Finishing(w.pages[token])
    ensures Moves(w, AfterComplete(w, token, resolved, at, now), s)
  {
    hide PageFits, LeasesOk, RowsOk, Guarded;
    var page := w.pages[token];
    var v := AfterComplete(w, token, resolved, at, now);
    if Complete(w.db, page, resolved, at, now).Ok? {
      GuardMeansBound(w, page.claim, token, at, s);
      var t := Guarded(w.db, page.claim, at).value;
      var row := page.claim.work.row;
      FinishingMeansFetched(t, page, s);
      var u := t.(status := Succeeded, errorCode := None, failures := 0, finishedAt := Some(now));
      assert Finished(t, HistoryOf(w, row), u, HistoryOf(w, row));
      hide RowMove, Bound, RowOk;
      OnlyRowMoves(w, v, row, u, HistoryOf(w, row), s);
    } else {
      NothingMoves(w, v, s);
    }
  }

  lemma FailMoves(w: World, token: nat, failure: PageFailure, at: int, now: int, s: Settings)
    requires Inv(w, s) && token in w.issued
    ensures Moves(w, AfterFail(w, token, failure, at, now), s)
  {
    hide PageFits, LeasesOk, RowsOk, Guarded, RetryDelay;
    var claim := w.issued[token];
    var v := AfterFail(w, token, failure, at, now);
    if Fail(w.db, claim, failure, at, now).Ok? {
      GuardMeansBound(w, claim, token, at, s);
      var t := Guarded(w.db, claim, at).value;
      var row := claim.work.row;
      var h := HistoryOf(w, row);
      var u := FailedOnce(t, failure, row.id, now);
      assert RowMove(t, h, u, h.(strikes := h.strikes + 1), s);
      hide RowMove, FailedOnce, Bound, RowOk;
      OnlyRowMoves(w, v, row, u, h.(strikes := h.strikes + 1), s);
    } else {
      NothingMoves(w, v, s);
    }
  }

  lemma PrepareMoves(w: World, token: nat, resolved: Result<Access, Error>, latest: Option<int>, at: int, now: int, s: Settings)
    requires Inv(w, s) && token in w.issued
    ensures Moves(w, AfterPrepare(w, token, resolved, latest, at, now, s), s)
  {
    hide PageFits, LeasesOk, RowsOk, Guarded, PageFor, TimeframeDelta;
    var claim := w.issued[token];
    var v := AfterPrepare(w, token, resolved, latest, at, now, s);
    if Prepare(w.db, claim, resolved, latest, s.chosen, at, now).Ok? {
      GuardMeansBound(w, claim, token, at, s);
      var t := Guarded(w.db, claim, at).value;
      var row := claim.work.row;
      var u := Scanning(t, latest, TimeframeDelta(claim.work.feed.timeframe).value, now);
      assert RowMove(t, HistoryOf(w, row), u, HistoryOf(w, row), s);
      hide RowMove, Scanning, Bound, RowOk;
      OnlyRowMoves(w, v, row, u, HistoryOf(w, row), s);
    } else {
      NothingMoves(w, v, s);
    }
  }

  // ----- the chain of saved pages -----

  /** The pages saved for a job follow each other with one bar of overlap, each past the last. */
  predicate InChain(t: Target, pages: seq<SavedPage>, k: nat, d: int, s: Settings)
    requires t.BackfillRow? && k < |pages|
  {
    var page := pages[k].page;
    var before := if k == 0 then t.fromTime else pages[k - 1].page.end;
    && before < t.toTime && (k > 0 ==> t.fromTime < before)
    && page.start == (if k == 0 then t.fromTime else Max(before - d, t.fromTime))
    && page.end == Min(t.toTime, page.start + PageSize(s.chosen, page.access.exchange) * d)
    && before < page.end && Usable(page, pages[k].points)
  }

  predicate Chain(t: Target, pages: seq<SavedPage>, s: Settings)
    requires t.BackfillRow?
  {
    var d := TimeframeDelta(t.feed.timeframe);
    if pages == [] then t.nextFetchAt.None?
    else
      && d.Some? && t.nextFetchAt == Some(pages[|pages| - 1].page.end)
      && forall k :: 0 <= k < |pages| ==> InChain(t, pages, k, d.value, s)
  }

  /** Failures still on the row, or spent before it succeeded. */
  function Slack(t: Target): nat
    requires t.BackfillRow?
  {
    if t.status == Succeeded then 2 else t.failures
  }

  /** The pages of a scan follow each other without a gap, up to the end it was started with. */
  predicate InScan(pages: seq<SavedPage>, k: nat, d: int, s: Settings)
    requires k < |pages|
  {
    var page := pages[k].page;
    && page.start <= page.scanEnd
    && page.end == Min(page.scanEnd, page.start + PageSize(s.chosen, page.access.exchange) * d)
    && (k > 0 && !Closes(pages[k - 1].page) ==>
          && page.scanEnd == pages[k - 1].page.scanEnd
          && pages[k - 1].page.end - d <= page.start <= pages[k - 1].page.end)
  }

  /** The pages saved for a subscription, scan by scan; an unfinished one stands at its last page. */
  predicate ScanChain(t: Target, pages: seq<SavedPage>, s: Settings)
    requires t.SubscriptionRow?
  {
    pages != [] ==>
      var d := TimeframeDelta(t.feed.timeframe);
      && d.Some? && (forall k :: 0 <= k < |pages| ==> InScan(pages, k, d.value, s))
      && var last := pages[|pages| - 1].page;
      !Closes(last) ==> t.nextFetchAt == Some(last.end) && t.scanTo == Some(last.scanEnd)
  }

  predicate RowHistoryOk(t: Target, h: History, s: Settings) {
    if t.SubscriptionRow? then ScanChain(t, h.pages, s)
    else Chain(t, h.pages, s) && h.strikes <= 2 * |h.pages| + Slack(t)
  }

  predicate HistoriesOk(w: World, s: Settings) {
    && w.history.Keys <= w.db.targets.Keys
    && forall row :: row in w.db.targets ==> RowHistoryOk(w.db.targets[row], HistoryOf(w, row), s)
  }

  lemma ChainGrows(t: Target, h: History, u: Target, g: History, s: Settings)
    requires s.Sound() && t.BackfillRow? && t.fromTime <= Cursor(t) <= t.toTime
    requires Advanced(t, h, u, g, s) && Chain(t, h.pages, s)
    ensures Chain(u, g.pages, s)
  {
    var n := |h.pages|;
    var d := TimeframeDelta(t.feed.timeframe).value;
    var page := g.pages[n].page;
    PageReaches(t, page, s);
    hide TimeframeDelta, PageSize, Usable;
    forall k | 0 <= k < |g.pages|
      ensures InChain(u, g.pages, k, d, s)
    {
      if k < n {
        assert InChain(t, h.pages, k, d, s);
        assert g.pages[k] == h.pages[k];
        if k > 0 {
          assert g.pages[k - 1] == h.pages[k - 1];
        }
      } else if n > 0 {
        assert InChain(t, h.pages, n - 1, d, s);
        assert g.pages[n - 1] == h.pages[n - 1];
      }
    }
  }

  lemma ChainStays(t: Target, u: Target, pages: seq<SavedPage>, s: Settings)
    requires SameRange(t, u) && u.nextFetchAt == t.nextFetchAt && Chain(t, pages, s)
    ensures Chain(u, pages, s)
  {
    hide TimeframeDelta, PageSize, Usable;
    if pages != [] {
      forall k | 0 <= k < |pages|
        ensures InChain(u, pages, k, TimeframeDelta(t.feed.timeframe).value, s)
      {
        assert InChain(t, pages, k, TimeframeDelta(t.feed.timeframe).value, s);
      }
    }
  }

  lemma ScanGrows(t: Target, h: History, u: Target, g: History, s: Settings)
    requires t.SubscriptionRow? && ScanChain(t, h.pages, s) && PollMove(t, h, u, g, s)
    ensures ScanChain(u, g.pages, s)
  {
    hide TimeframeDelta, PageSize;
    if !(Rests(t, h, u, g) || Begins(t, h, u, g)) {
      var d := TimeframeDelta(t.feed.timeframe).value;
      forall k | 0 <= k < |g.pages|
        ensures InScan(g.pages, k, d, s)
      {
        if k < |h.pages| {
          assert InScan(h.pages, k, d, s);
          assert g.pages[k] == h.pages[k];
        }
        if 0 < k {
          assert g.pages[k - 1] == h.pages[k - 1];
        }
      }
    }
  }

  lemma MoveKeepsHistory(row: RowId, t: Target, h: History, u: Target, g: History, s: Settings)
    requires s.Sound() && RowOk(row, t) && RowHistoryOk(t, h, s) && RowMove(t, h, u, g, s)
    ensures RowHistoryOk(u, g, s)
  {
    if t.SubscriptionRow? {
      ScanGrows(t, h, u, g, s);
    } else {
      if Advanced(t, h, u, g, s) {
        ChainGrows(t, h, u, g, s);
      } else {
        ChainStays(t, u, h.pages, s);
      }
      hide Chain, PageFits;
    }
  }

  lemma MovesKeepHistories(w: World, v: World, s: Settings)
    requires s.Sound() && RowsOk(w) && HistoriesOk(w, s) && Moves(w, v, s)
    ensures HistoriesOk(v, s)
  {
    hide RowMove, RowHistoryOk, RowOk;
    forall row | row in v.db.targets
      ensures RowHistoryOk(v.db.targets[row], HistoryOf(v, row), s)
    {
      MoveKeepsHistory(row, w.db.targets[row], HistoryOf(w, row), v.db.targets[row], HistoryOf(v, row), s);
    }
  }

  lemma ClaimKeepsHistories(w: World, work: WorkRef, owner: nat, now: int, token: nat, s: Settings)
    requires Inv(w, s) && s.Sound() && HistoriesOk(w, s) && token !in w.issued
    ensures HistoriesOk(AfterClaim(w, work, owner, now, token, s), s)
  {
    var keyed := w.(db := WithLeaseRow(w.db, work.feed));
    if work.feed !in w.db.leases {
      OnlyFree(w, keyed, work.feed, s);
    }
    assert Inv(keyed, s);
    assert HistoriesOk(keyed, s) by {
      NothingMoves(w, keyed, s);
      MovesKeepHistories(w, keyed, s);
    }
    var lease := keyed.db.leases[work.feed];
    assert RowsOk(keyed);
    hide Inv, Recover, TakeIfDue, HistoriesOk, RowsOk, Moves;
    if lease.token.None? {
      TakeMoves(keyed, work, owner, now, token, s);
      MovesKeepHistories(keyed, AfterTake(keyed, work, owner, now, token, s), s);
    } else if lease.until.Some? && lease.until.value <= now {
      RecoverMoves(keyed, work.feed, now, s);
      RecoverKeepsInv(keyed, work.feed, now, s);
      var recovered := AfterRecover(keyed, work.feed, now);
      MovesKeepHistories(keyed, recovered, s);
      InvHasRows(recovered, s);
      TakeMoves(recovered, work, owner, now, token, s);
      MovesKeepHistories(recovered, AfterTake(recovered, work, owner, now, token, s), s);
    }
  }

  lemma InvHasRows(w: World, s: Settings)
    requires Inv(w, s)
    ensures RowsOk(w)
  {
  }

  lemma AddKeepsHistories(w: World, row: RowId, t: Target, s: Settings)
    requires HistoriesOk(w, s) && row !in w.db.targets && New(row, t)
    ensures HistoriesOk(w.(db := PutTarget(w.db, row, t)), s)
  {
  }

  lemma ActMoves(w: World, step: Step, s: Settings)
    requires Inv(w, s) && Possible(w, step) && !step.action.Add? && !step.action.DoClaim?
    ensures Moves(w, Act(w, step, s), s)
  {
    hide Inv, AfterPrepare, AfterSave, AfterComplete, AfterFail, AfterRecover, Moves, Owned;
    match step.action
    case Toggle(row, enabled) => ToggleMoves(w, row, enabled, s);
    case DoBeat(_) => NothingMoves(w, Act(w, step, s), s);
    case DoRelease(_) => NothingMoves(w, Act(w, step, s), s);
    case DoPrepare(token, resolved, latest) => PrepareMoves(w, token, resolved, latest, step.at, step.now, s);
    case DoSave(token, points, resolved) => SaveMoves(w, token, points, resolved, step.at, step.now, s);
    case DoComplete(token, resolved) => CompleteMoves(w, token, resolved, step.at, step.now, s);
    case DoFail(token, failure) => FailMoves(w, token, failure, step.at, step.now, s);
    case DoRecover(feed) => RecoverMoves(w, feed, step.now, s);
  }

  lemma StepKeepsHistories(w: World, step: Step, s: Settings)
    requires Inv(w, s) && s.Sound() && HistoriesOk(w, s) && Possible(w, step)
    ensures HistoriesOk(Next(w, step, s), s)
  {
    var v := Act(w, step, s);
    InvHasRows(w, s);
    if step.action.Add? {
      AddKeepsHistories(w, step.action.row, step.action.target, s);
    } else if step.action.DoClaim? {
      ClaimKeepsHistories(w, step.action.work, step.action.owner, step.at, step.action.token, s);
    } else {
      ActMoves(w, step, s);
      MovesKeepHistories(w, v, s);
    }
    hide Act, Inv, RowsOk, RowHistoryOk;
    assert HistoriesOk(v, s);
    assert forall row :: HistoryOf(v.(clock := step.now), row) == HistoryOf(v, row);
  }

  lemma ToggleMoves(w: World, row: RowId, enabled: bool, s: Settings)
    requires row in w.db.targets && w.db.targets[row].SubscriptionRow?
    ensures Moves(w, w.(db := PutTarget(w.db, row, w.db.targets[row].(enabled := enabled))), s)
  {
  }

  lemma {:induction false} RunKeepsHistories(w: World, steps: seq<Step>, s: Settings)
    requires Inv(w, s) && s.Sound() && HistoriesOk(w, s) && PossibleRun(w, steps, s)
    ensures Inv(RunAll(w, steps, s), s) && HistoriesOk(RunAll(w, steps, s), s)
    decreases |steps|
  {
    hide Inv, HistoriesOk, Next;
    if steps != [] {
      StepKeepsInv(w, steps[0], s);
      StepKeepsHistories(w, steps[0], s);
      RunKeepsHistories(Next(w, steps[0], s), steps[1..], s);
    }
  }

  lemma ReachedHistory(clock: int, steps: seq<Step>, s: Settings, row: RowId)
    requires s.Sound() && PossibleRun(Start(clock), steps, s) && row in RunAll(Start(clock), steps, s).db.targets
    ensures var w := RunAll(Start(clock), steps, s);
            RowHistoryOk(w.db.targets[row], HistoryOf(w, row), s) && RowOk(row, w.db.targets[row])
  {
    hide RowHistoryOk, RowOk, PossibleRun, RunAll;
    RunKeepsHistories(Start(clock), steps, s);
  }

  // ----- nothing is lost between pages -----

  /** The candle opens and closes inside the page. */
  predicate Within(page: PreparedPage, open: int, close: int) { page.start <= open && close <= page.end }

  lemma {:induction false} ChainCovers(t: Target, pages: seq<SavedPage>, n: nat, d: int, s: Settings,
        open: int) returns (k: nat)
    requires t.BackfillRow? && d > 0 && 0 < n <= |pages|
    requires forall i :: 0 <= i < |pages| ==> InChain(t, pages, i, d, s)
    requires t.fromTime <= open && open + d <= pages[n - 1].page.end
    ensures k < n && Within(pages[k].page, open, open + d)
  {
    assert InChain(t, pages, n - 1, d, s);
    if n == 1 || open + d > pages[n - 2].page.end {
      return n - 1;
    }
    k := ChainCovers(t, pages, n - 1, d, s, open);
  }

  /** Whatever was kept of a page contains this candle. */
  ghost predicate Kept(saved: SavedPage, p: CandlePoint) {
    forall kept :: AreFinalPoints(saved.page, saved.points, kept) ==> Contains(kept, p)
  }

  /** For every job in every reachable state: a bar between the start of its range and its cursor
      lies inside some saved page, also where it straddles the end of the page before; and if that
      page's response held the final candle of the bar, observed after its close, it was kept. */
  lemma NothingLostBeforeCursor(clock: int, steps: seq<Step>, s: Settings, row: RowId, p: CandlePoint) returns (k: nat)
    requires s.Sound() && PossibleRun(Start(clock), steps, s)
    requires row in RunAll(Start(clock), steps, s).db.targets && RunAll(Start(clock), steps, s).db.targets[row].BackfillRow?
    requires var t := RunAll(Start(clock), steps, s).db.targets[row];
             && TimeframeDelta(t.feed.timeframe) == Some(p.closeTime - p.openTime)
             && t.fromTime <= p.openTime && p.closeTime <= Cursor(t)
    ensures var pages := HistoryOf(RunAll(Start(clock), steps, s), row).pages;
            && k < |pages| && Within(pages[k].page, p.openTime, p.closeTime)
            && (Contains(pages[k].points, p) && p.isFinal && p.closeTime <= pages[k].page.observedAt ==> Kept(pages[k], p))
  {
    hide TimeframeDelta, RunAll, PossibleRun;
    ReachedHistory(clock, steps, s, row);
    var w := RunAll(Start(clock), steps, s);
    var t := w.db.targets[row];
    var pages := HistoryOf(w, row).pages;
    var d := p.closeTime - p.openTime;
    k := ChainCovers(t, pages, |pages|, d, s, p.openTime);
    if Contains(pages[k].points, p) && p.isFinal && p.closeTime <= pages[k].page.observedAt {
      KeptIfReturned(pages[k], p);
    }
  }

  lemma KeptIfReturned(saved: SavedPage, p: CandlePoint)
    requires Within(saved.page, p.openTime, p.closeTime) && p.openTime < p.closeTime
    requires Contains(saved.points, p) && p.isFinal && p.closeTime <= saved.page.observedAt
    ensures Kept(saved, p)
  {
  }

  /** And a job that succeeded had its cursor at the end of its range, so it lost nothing of it. */
  lemma SucceededMeansComplete(clock: int, steps: seq<Step>, s: Settings, row: RowId)
    requires s.Sound() && PossibleRun(Start(clock), steps, s)
    requires row in RunAll(Start(clock), steps, s).db.targets && RunAll(Start(clock), steps, s).db.targets[row].BackfillRow?
    requires RunAll(Start(clock), steps, s).db.targets[row].status == Succeeded
    ensures Cursor(RunAll(Start(clock), steps, s).db.targets[row]) == RunAll(Start(clock), steps, s).db.targets[row].toTime
  {
    RunKeepsInv(Start(clock), steps, s);
    assert RowOk(row, RunAll(Start(clock), steps, s).db.targets[row]);
  }

  // ----- a bound on pages and failures -----

  /** What a page of an exchange is sure to advance: all of its bars but the overlapping one. */
  function Stride(s: Settings, exchange: string, d: int): int { (PageSize(s.chosen, exchange) - 1) * d }

  /** The strides of the first `n` pages together. */
  function Strides(s: Settings, pages: seq<SavedPage>, n: nat, d: int): int
    requires n <= |pages|
  {
    if n == 0 then 0 else Strides(s, pages, n - 1, d) + Stride(s, pages[n - 1].page.access.exchange, d)
  }

  lemma {:induction false} ChainAdvances(t: Target, pages: seq<SavedPage>, n: nat, d: int, s: Settings)
    requires t.BackfillRow? && d > 0 && s.Sound() && 0 < n <= |pages|
    requires forall i :: 0 <= i < |pages| ==> InChain(t, pages, i, d, s)
    ensures pages[n - 1].page.end >= Min(t.toTime, t.fromTime + Strides(s, pages, n, d))
  {
    assert InChain(t, pages, n - 1, d, s);
    Arithmetic.SumTimes(PageSize(s.chosen, pages[n - 1].page.access.exchange) - 1, 1, d);
    if n > 1 {
      ChainAdvances(t, pages, n - 1, d, s);
    }
    hide PageSize;
  }

  /** All pages but the last advance by less than the range of the job. */
  lemma StridesFit(t: Target, pages: seq<SavedPage>, d: int, s: Settings)
    requires t.BackfillRow? && d > 0 && s.Sound() && pages != []
    requires forall i :: 0 <= i < |pages| ==> InChain(t, pages, i, d, s)
    ensures Strides(s, pages, |pages| - 1, d) < t.toTime - t.fromTime
  {
    hide Stride, PageSize;
    assert InChain(t, pages, |pages| - 1, d, s);
    if |pages| > 1 {
      ChainAdvances(t, pages, |pages| - 1, d, s);
    }
  }

  predicate AllFrom(pages: seq<SavedPage>, exchange: string) {
    forall k :: 0 <= k < |pages| ==> pages[k].page.access.exchange == exchange
  }

  lemma {:induction false} EqualStrides(s: Settings, pages: seq<SavedPage>, n: nat, d: int, exchange: string)
    requires n <= |pages| && AllFrom(pages, exchange)
    ensures Strides(s, pages, n, d) == n * Stride(s, exchange, d)
  {
    hide Stride;
    if n > 0 {
      EqualStrides(s, pages, n - 1, d, exchange);
      Arithmetic.SumTimes(n - 1, 1, Stride(s, exchange, d));
    }
  }

  lemma StrideIsPositive(s: Settings, exchange: string, d: int)
    requires d > 0 && s.Sound()
    ensures Stride(s, exchange, d) > 0
  {
    Arithmetic.TimesStrict(0, PageSize(s.chosen, exchange) - 1, d);
  }

  /** How many whole or partial strides the range of a job has. */
  function MostPages(t: Target, s: Settings, exchange: string, d: int): int
    requires t.BackfillRow? && d > 0 && s.Sound()
  {
    StrideIsPositive(s, exchange, d);
    (t.toTime - t.fromTime + Stride(s, exchange, d) - 1) / Stride(s, exchange, d)
  }

  lemma ChainIsShort(t: Target, pages: seq<SavedPage>, d: int, s: Settings, exchange: string)
    requires t.BackfillRow? && d > 0 && s.Sound() && pages != [] && AllFrom(pages, exchange)
    requires Strides(s, pages, |pages| - 1, d) < t.toTime - t.fromTime
    ensures |pages| <= MostPages(t, s, exchange, d)
  {
    hide Stride, Strides;
    StrideIsPositive(s, exchange, d);
    EqualStrides(s, pages, |pages| - 1, d, exchange);
    hide AllFrom, PageSize;
    Arithmetic.AtMostCeiling(|pages|, t.toTime - t.fromTime, Stride(s, exchange, d));
  }

  /** Over any run the pages of a job but the last advance by less than its range, each by its own
      page size less one bar; so a job whose pages come from one exchange has at most
      ceil(range / stride) of them. And it is charged at most two failures a page and three more: it
      cannot be retried for ever. */
  lemma JobsEnd(clock: int, steps: seq<Step>, s: Settings, row: RowId, exchange: string)
    requires s.Sound() && PossibleRun(Start(clock), steps, s)
    requires row in RunAll(Start(clock), steps, s).db.targets && RunAll(Start(clock), steps, s).db.targets[row].BackfillRow?
    ensures var w := RunAll(Start(clock), steps, s);
            var (t, h) := (w.db.targets[row], HistoryOf(w, row));
            && (h.pages != [] ==>
                  && TimeframeDelta(t.feed.timeframe).Some?
                  && var d := TimeframeDelta(t.feed.timeframe).value;
                  && Strides(s, h.pages, |h.pages| - 1, d) < t.toTime - t.fromTime
                  && (AllFrom(h.pages, exchange) ==> |h.pages| <= MostPages(t, s, exchange, d)))
            && h.strikes <= 2 * |h.pages| + 3
  {
    hide TimeframeDelta, MostPages, Strides, RunAll, PossibleRun, InChain, AllFrom;
    ReachedHistory(clock, steps, s, row);
    var w := RunAll(Start(clock), steps, s);
    var (t, h) := (w.db.targets[row], HistoryOf(w, row));
    if h.pages != [] {
      var d := TimeframeDelta(t.feed.timeframe).value;
      StridesFit(t, h.pages, d, s);
      if AllFrom(h.pages, exchange) {
        ChainIsShort(t, h.pages, d, s, exchange);
      }
    }
  }

  // ----- every claim that ends makes progress -----

  /** Less left to fetch, or as much and one attempt fewer, or the job has stopped. */
  predicate Progressed(t: Target, u: Target) {
    t.BackfillRow? && u.BackfillRow? &&
    (|| Cursor(u) > Cursor(t)
     || (Cursor(u) == Cursor(t) && u.failures > t.failures)
     || !u.Active())
  }

  lemma MoveProgresses(row: RowId, t: Target, h: History, u: Target, g: History, s: Settings)
    requires s.Sound() && RowOk(row, t) && t.BackfillRow? && RowMove(t, h, u, g, s)
    ensures Idle(t, h, u, g) || Progressed(t, u)
  {
    if Advanced(t, h, u, g, s) {
      PageReaches(t, g.pages[|h.pages|].page, s);
    }
    hide PageFits;
  }

  /** The row of the work a lease was taken for. */
  function LeasedRow(l: Lease): RowId
    requires l.kind.Some? && l.workId.Some?
  {
    RowId(l.kind.value, l.workId.value)
  }

  /** The lease of the feed is no longer the one it was. */
  predicate Ended(w: World, v: World, feed: FeedKey)
    requires feed in w.db.leases
  {
    feed in v.db.leases ==> v.db.leases[feed].token != w.db.leases[feed].token
  }

  /** What tells an ended claim from an idle move. */
  predicate Marked(w: World, v: World, row: RowId)
    requires row in v.db.targets
  {
    HistoryOf(v, row) != HistoryOf(w, row) || !v.db.targets[row].Active()
  }

  /** An active row leased to a worker. */
  predicate ActiveLease(w: World, feed: FeedKey) {
    && feed in w.db.leases && w.db.leases[feed].token.Some? && w.db.leases[feed].kind == Some(Backfill)
    && w.db.leases[feed].workId.Some? && LeasedRow(w.db.leases[feed]) in w.db.targets
    && w.db.targets[LeasedRow(w.db.leases[feed])].Active()
  }

  lemma EndedBySave(w: World, token: nat, points: seq<CandlePoint>, resolved: Result<Access, Error>, at: int,
        now: int, s: Settings, feed: FeedKey)
    requires Inv(w, s) && token in w.pages && ActiveLease(w, feed)
    requires Ended(w, AfterSave(w, token, points, resolved, at, now), feed)
    ensures var row := LeasedRow(w.db.leases[feed]);
            row in AfterSave(w, token, points, resolved, at, now).db.targets
                  && Marked(w, AfterSave(w, token, points, resolved, at, now), row)
  {
    hide PageFits, RowOk, Usable, Saved, LeasesOk, RowsOk;
    var page := w.pages[token];
    if Save(w.db, page, points, resolved, at, now).Ok? {
      GuardMeansBound(w, page.claim, token, at, s);
      var row := page.claim.work.row;
      assert |HistoryOf(AfterSave(w, token, points, resolved, at, now), row).pages| == |HistoryOf(w, row).pages| + 1;
    }
  }

  lemma EndedByComplete(w: World, token: nat, resolved: Result<Access, Error>, at: int, now: int, s: Settings, feed: FeedKey)
    requires Inv(w, s) && token in w.pages && ActiveLease(w, feed)
    requires Ended(w, AfterComplete(w, token, resolved, at, now), feed)
    ensures var row := LeasedRow(w.db.leases[feed]);
            row in AfterComplete(w, token, resolved, at, now).db.targets
                  && Marked(w, AfterComplete(w, token, resolved, at, now), row)
  {
  }

  lemma EndedByFail(w: World, token: nat, failure: PageFailure, at: int, now: int, s: Settings, feed: FeedKey)
    requires Inv(w, s) && token in w.issued && ActiveLease(w, feed)
    requires Ended(w, AfterFail(w, token, failure, at, now), feed)
    ensures var row := LeasedRow(w.db.leases[feed]);
            row in AfterFail(w, token, failure, at, now).db.targets && Marked(w, AfterFail(w, token, failure, at, now), row)
  {
  }

  lemma EndedByRecover(w: World, feed: FeedKey, other: FeedKey, now: int, s: Settings)
    requires Inv(w, s) && other in w.db.leases && ActiveLease(w, feed) && Ended(w, AfterRecover(w, other, now), feed)
    ensures var row := LeasedRow(w.db.leases[feed]);
            row in AfterRecover(w, other, now).db.targets && Marked(w, AfterRecover(w, other, now), row)
  {
    hide PageFits, RowOk, Interrupted;
    assert FeedOk(w, feed, s);
  }

  lemma MarkedProgresses(w: World, v: World, row: RowId, s: Settings)
    requires s.Sound() && RowsOk(w) && Moves(w, v, s) && row in w.db.targets && w.db.targets[row].BackfillRow?
    requires Marked(w, v, row) && w.db.targets[row].Active()
    ensures Progressed(w.db.targets[row], v.db.targets[row])
  {
    hide RowMove, Progressed, RowOk;
    MoveProgresses(row, w.db.targets[row], HistoryOf(w, row), v.db.targets[row], HistoryOf(v, row), s);
  }

  lemma LeasedJob(w: World, feed: FeedKey, s: Settings)
    requires Inv(w, s) && ActiveLease(w, feed)
    ensures w.db.targets[LeasedRow(w.db.leases[feed])].BackfillRow? && RowsOk(w)
  {
  }

  lemma EndedByClaim(w: World, work: WorkRef, owner: nat, now: int, token: nat, s: Settings, feed: FeedKey)
    requires Inv(w, s) && s.Sound() && token !in w.issued && ActiveLease(w, feed)
    requires Ended(w, AfterClaim(w, work, owner, now, token, s), feed)
    ensures var row := LeasedRow(w.db.leases[feed]);
            && row in AfterClaim(w, work, owner, now, token, s).db.targets
            && Progressed(w.db.targets[row], AfterClaim(w, work, owner, now, token, s).db.targets[row])
  {
    LeasedJob(w, feed, s);
    var row := LeasedRow(w.db.leases[feed]);
    OnlyItsFeed(w, work, owner, now, token, s, feed);
    assert w.(db := WithLeaseRow(w.db, feed)) == w;
    var recovered := AfterRecover(w, feed, now);
    RecoverKeepsInv(w, feed, now, s);
    RecoverMoves(w, feed, now, s);
    RecoveredIsFree(w, feed, now);
    EndedByRecover(w, feed, feed, now, s);
    MarkedProgresses(w, recovered, row, s);
    hide Inv, AfterRecover, Recover, TakeIfDue;
    TakeIsIdle(recovered, work, owner, now, token, s, row);
  }

  lemma TakeIsIdle(w: World, work: WorkRef, owner: nat, now: int, token: nat, s: Settings, row: RowId)
    requires row in w.db.targets && w.db.targets[row].BackfillRow?
    ensures var v := AfterTake(w, work, owner, now, token, s);
            row in v.db.targets && Idle(w.db.targets[row], HistoryOf(w, row), v.db.targets[row], HistoryOf(v, row))
  {
  }

  /** A claim ends another claim only on its own feed, after that one expired. */
  lemma OnlyItsFeed(w: World, work: WorkRef, owner: nat, now: int, token: nat, s: Settings, feed: FeedKey)
    requires feed in w.db.leases && w.db.leases[feed].token.Some?
    requires Ended(w, AfterClaim(w, work, owner, now, token, s), feed)
    ensures work.feed == feed && Recover(w.db, feed, now).Ok?
    ensures AfterClaim(w, work, owner, now, token, s) == AfterTake(AfterRecover(w, feed, now), work, owner, now, token, s)
  {
  }

  lemma QuietStepsEndNothing(w: World, step: Step, s: Settings, feed: FeedKey)
    requires Possible(w, step) && feed in w.db.leases
    requires step.action.Add? || step.action.Toggle? || step.action.DoBeat? || step.action.DoPrepare?
    ensures !Ended(w, Act(w, step, s), feed)
  {
  }

  /** A claim on an active job ends in three ways: it is given back, or a page or the job is written,
      or a failure is charged; only the first leaves the job where it was. */
  lemma EndedClaimProgresses(w: World, step: Step, s: Settings, feed: FeedKey)
    requires Inv(w, s) && s.Sound() && Possible(w, step) && !step.action.DoRelease?
    requires ActiveLease(w, feed) && Ended(w, Next(w, step, s), feed)
    ensures var row := LeasedRow(w.db.leases[feed]);
            row in Next(w, step, s).db.targets && Progressed(w.db.targets[row], Next(w, step, s).db.targets[row])
  {
    LeasedJob(w, feed, s);
    var row := LeasedRow(w.db.leases[feed]);
    var v := Act(w, step, s);
    hide AfterClaim, AfterPrepare, AfterSave, AfterComplete, AfterFail, AfterRecover, Inv, Progressed, Moves, RowsOk,
          Marked, ActiveLease;
    hide Heartbeat;
    match step.action
    case DoClaim(work, owner, token) => EndedByClaim(w, work, owner, step.at, token, s, feed);
    case DoSave(token, points, resolved) =>
      EndedBySave(w, token, points, resolved, step.at, step.now, s, feed);
      SaveMoves(w, token, points, resolved, step.at, step.now, s);
      MarkedProgresses(w, v, row, s);
    case DoComplete(token, resolved) =>
      EndedByComplete(w, token, resolved, step.at, step.now, s, feed);
      CompleteMoves(w, token, resolved, step.at, step.now, s);
      MarkedProgresses(w, v, row, s);
    case DoFail(token, failure) =>
      EndedByFail(w, token, failure, step.at, step.now, s, feed);
      FailMoves(w, token, failure, step.at, step.now, s);
      MarkedProgresses(w, v, row, s);
    case DoRecover(other) =>
      EndedByRecover(w, feed, other, step.now, s);
      RecoverMoves(w, other, step.now, s);
      MarkedProgresses(w, v, row, s);
    case _ => QuietStepsEndNothing(w, step, s, feed);
  }
}
