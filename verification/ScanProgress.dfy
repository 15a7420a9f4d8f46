/** The scans of a subscription: each starts at the clock of a preparation, follows its pages without
    a gap, and ends after a bounded number of them. */
module ScanProgress {
  import opened Wrappers
  import opened WorkRows
  import opened Leases
  import opened Pages
  import opened WorkerRuns
  import opened WorkerSafety
  import opened WorkerProgress
  import Arithmetic

  // ----- one transaction -----

  /** What a saved page leaves of a subscription. */
  predicate SavedAs(t: Target, page: PreparedPage, now: int, u: Target) {
    && t.SubscriptionRow? && u.SubscriptionRow?
    && u.feed == t.feed && u.enabled == t.enabled && u.pollSeconds == t.pollSeconds && u.blockedReason == t.blockedReason
    && u.failures == 0 && u.lastErrorCode == None && u.lastPolledAt == Some(now)
    && (u.nextFetchAt.None? <==> page.end == page.scanEnd) && (u.scanTo.None? <==> page.end == page.scanEnd)
    && (if page.end == page.scanEnd then
          u.lastSuccessAt == Some(now) && u.nextRunAt == now + t.pollSeconds * 1000000
        else
          && u.nextFetchAt == Some(page.end) && u.scanTo == Some(page.scanEnd)
          && u.lastSuccessAt == t.lastSuccessAt && u.nextRunAt == now)
  }

  /** In every reachable state: a saved page ends the scan of its subscription exactly if it reaches the
      end of the scan; then the next one is due after the poll interval, and else at once. */
  lemma SavingEndsTheScan(clock: int, steps: seq<Step>, s: Settings, token: nat, points: seq<CandlePoint>,
        resolved: Result<Access, Error>, at: int, now: int)
    requires s.Sound() && PossibleRun(Start(clock), steps, s) && token in RunAll(Start(clock), steps, s).pages
    requires RunAll(Start(clock), steps, s).pages[token].claim.work.row.kind == Polling
    ensures var w := RunAll(Start(clock), steps, s);
            var page := w.pages[token];
            var row := page.claim.work.row;
            var saved := Save(w.db, page, points, resolved, at, now);
            saved.Ok? ==>
              && row in w.db.targets && row in saved.value.targets
              && SavedAs(w.db.targets[row], page, now, saved.value.targets[row])
  {
    StartIsFine(clock, s);
    RunKeepsInv(Start(clock), steps, s);
    var w := RunAll(Start(clock), steps, s);
    var page := w.pages[token];
    hide PossibleRun, RunAll, Usable, PageFits, RowOk, LeasesOk, RowsOk;
    if Save(w.db, page, points, resolved, at, now).Ok? {
      GuardMeansBound(w, page.claim, token, at, s);
      PageIsOfItsScan(Find(w.db, page.claim.work).value, page, s);
      hide Guarded, Bound;
    }
  }

  lemma StartIsFine(clock: int, s: Settings)
    ensures Inv(Start(clock), s)
  {
  }

  lemma PageIsOfItsScan(t: Target, page: PreparedPage, s: Settings)
    requires t.SubscriptionRow? && PageFits(t, page, s)
    ensures t.scanTo == Some(page.scanEnd) && t.nextFetchAt.Some?
  {
  }

  /** The page prepared for a subscription: without a checkpoint a scan begins that ends at the clock of
      the preparation, from the newest stored candle or two bars back; with one the scan goes on. Either
      way the page starts one bar before, unless nothing is stored. */
  lemma PreparingBeginsTheScan(db: Db, claim: LeaseClaim, resolved: Result<Access, Error>, latest: Option<int>,
        chosen: Option<nat>, check: int, now: int)
    requires Find(db, claim.work).Some? && Find(db, claim.work).value.SubscriptionRow?
    requires var t := Find(db, claim.work).value; t.nextFetchAt.None? <==> t.scanTo.None?
    ensures var prepared := Prepare(db, claim, resolved, latest, chosen, check, now);
            prepared.Ok? ==>
              var (db', page) := prepared.value;
              && Find(db', claim.work).Some? && TimeframeDelta(claim.work.feed.timeframe).Some?
              && var (t, u, d) := (Find(db, claim.work).value, Find(db', claim.work).value,
                                   TimeframeDelta(claim.work.feed.timeframe).value);
              && db'.leases == db.leases && u.SubscriptionRow?
              && u == t.(nextFetchAt := u.nextFetchAt, scanTo := u.scanTo)
              && page.claim == claim.(nextFetchAt := u.nextFetchAt) && page.observedAt == now
              && u.scanTo == Some(page.scanEnd) && u.nextFetchAt.Some?
              && (if t.scanTo.Some? then u == t && page.start == t.nextFetchAt.value - d
                  else
                    && page.scanEnd == now
                    && (latest.Some? ==> u.nextFetchAt == Some(Min(latest.value, now)) && page.start == u.nextFetchAt.value - d)
                    && (latest.None? ==> u.nextFetchAt == Some(now - 2 * d) && page.start == now - 2 * d))
              && Ok(page.access) == resolved
              && page.end == Min(page.scanEnd, page.start + PageSize(chosen, page.access.exchange) * d)
  {
  }

  // ----- scans over a run -----

  /** Pages i to j - 1 are of one scan: none but the last of them reaches its end. */
  predicate OneScan(pages: seq<SavedPage>, i: nat, j: nat)
    requires i < j <= |pages|
  {
    forall k :: i <= k < j - 1 ==> !Closes(pages[k].page)
  }

  lemma {:induction false} ScanAdvances(pages: seq<SavedPage>, i: nat, j: nat, d: int, s: Settings)
    requires d > 0 && s.Sound() && i < j <= |pages| && OneScan(pages, i, j)
    requires forall k :: 0 <= k < |pages| ==> InScan(pages, k, d, s)
    ensures pages[j - 1].page.scanEnd == pages[i].page.scanEnd
    ensures Strides(s, pages[i..j], j - i - 1, d) <= pages[i].page.scanEnd - pages[i].page.start
    ensures !Closes(pages[j - 1].page) ==>
              Strides(s, pages[i..j], j - i, d) <= pages[j - 1].page.end - pages[i].page.start
    decreases j
  {
    assert InScan(pages, j - 1, d, s);
    var size := PageSize(s.chosen, pages[j - 1].page.access.exchange);
    Arithmetic.SumTimes(size - 1, 1, d);
    if j - 1 > i {
      ScanAdvances(pages, i, j - 1, d, s);
      assert InScan(pages, j - 2, d, s);
      PrefixStrides(s, pages[i..j], j - i - 1, d);
      assert pages[i..j][..j - i - 1] == pages[i..j - 1];
    }
    hide PageSize;
  }

  lemma {:induction false} PrefixStrides(s: Settings, pages: seq<SavedPage>, n: nat, d: int)
    requires n <= |pages|
    ensures Strides(s, pages[..n], n, d) == Strides(s, pages, n, d)
    decreases n
  {
    if n > 0 {
      PrefixStrides(s, pages, n - 1, d);
      PrefixStrides(s, pages[..n], n - 1, d);
      assert pages[..n][..n - 1] == pages[..n - 1];
    }
  }

  /** How many pages of an exchange a scan can have: one, and one more for each whole stride. */
  function MostOfScan(first: PreparedPage, s: Settings, exchange: string, d: int): int
    requires d > 0 && s.Sound()
  {
    StrideIsPositive(s, exchange, d);
    (first.scanEnd - first.start) / Stride(s, exchange, d) + 1
  }

  lemma ScanIsShort(pages: seq<SavedPage>, i: nat, j: nat, d: int, s: Settings, exchange: string)
    requires d > 0 && s.Sound() && i < j <= |pages| && AllFrom(pages[i..j], exchange)
    requires Strides(s, pages[i..j], j - i - 1, d) <= pages[i].page.scanEnd - pages[i].page.start
    ensures j - i <= MostOfScan(pages[i].page, s, exchange, d)
  {
    hide Stride, Strides, PageSize;
    StrideIsPositive(s, exchange, d);
    EqualStrides(s, pages[i..j], j - i - 1, d, exchange);
    hide AllFrom;
    var (range, stride) := (pages[i].page.scanEnd - pages[i].page.start, Stride(s, exchange, d));
    Arithmetic.Quotient(range, stride);
    if range / stride < j - i - 1 {
      Arithmetic.TimesStrict(range / stride, j - i - 1, stride);
    }
  }

  /** Over any run: the pages of one scan of a subscription all end by the end it began with and
      together span no more than it, so there are at most range / stride + 1 of them from one exchange:
      by then the scan has ended. While it has not, the subscription stands at its last page. */
  lemma ScansEnd(clock: int, steps: seq<Step>, s: Settings, row: RowId, i: nat, j: nat, exchange: string)
    requires s.Sound() && PossibleRun(Start(clock), steps, s)
    requires row in RunAll(Start(clock), steps, s).db.targets
             && RunAll(Start(clock), steps, s).db.targets[row].SubscriptionRow?
    requires var pages := HistoryOf(RunAll(Start(clock), steps, s), row).pages; i < j <= |pages| && OneScan(pages, i, j)
    ensures var w := RunAll(Start(clock), steps, s);
            var (t, pages) := (w.db.targets[row], HistoryOf(w, row).pages);
            && TimeframeDelta(t.feed.timeframe).Some?
            && var d := TimeframeDelta(t.feed.timeframe).value;
            && pages[j - 1].page.scanEnd == pages[i].page.scanEnd
            && Strides(s, pages[i..j], j - i - 1, d) <= pages[i].page.scanEnd - pages[i].page.start
            && (AllFrom(pages[i..j], exchange) ==> j - i <= MostOfScan(pages[i].page, s, exchange, d))
            && (j == |pages| && !Closes(pages[j - 1].page) ==>
                  t.nextFetchAt == Some(pages[j - 1].page.end) && t.scanTo == Some(pages[i].page.scanEnd))
  {
    hide TimeframeDelta, MostOfScan, Strides, RunAll, PossibleRun, InScan, OneScan, AllFrom;
    ReachedHistory(clock, steps, s, row);
    var w := RunAll(Start(clock), steps, s);
    var (t, h) := (w.db.targets[row], HistoryOf(w, row));
    var d := TimeframeDelta(t.feed.timeframe).value;
    ScanAdvances(h.pages, i, j, d, s);
    if AllFrom(h.pages[i..j], exchange) {
      ScanIsShort(h.pages, i, j, d, s, exchange);
    }
  }

  lemma {:induction false} ScanCovers(pages: seq<SavedPage>, i: nat, j: nat, d: int, s: Settings, x: int) returns (k: nat)
    requires i < j <= |pages| && OneScan(pages, i, j)
    requires forall k :: 0 <= k < |pages| ==> InScan(pages, k, d, s)
    requires pages[i].page.start <= x < pages[j - 1].page.end
    ensures i <= k < j && pages[k].page.start <= x < pages[k].page.end
    decreases j
  {
    hide PageSize;
    assert InScan(pages, j - 1, d, s);
    if j - 1 == i || pages[j - 1].page.start <= x {
      return j - 1;
    }
    k := ScanCovers(pages, i, j - 1, d, s, x);
  }

  /** Over any run and within one scan, every moment from the start of its first page to the end of its
      last lies in a saved page. */
  lemma ScanHasNoHole(clock: int, steps: seq<Step>, s: Settings, row: RowId, i: nat, j: nat, x: int) returns (k: nat)
    requires s.Sound() && PossibleRun(Start(clock), steps, s)
    requires row in RunAll(Start(clock), steps, s).db.targets
             && RunAll(Start(clock), steps, s).db.targets[row].SubscriptionRow?
    requires var pages := HistoryOf(RunAll(Start(clock), steps, s), row).pages;
             i < j <= |pages| && OneScan(pages, i, j) && pages[i].page.start <= x < pages[j - 1].page.end
    ensures var pages := HistoryOf(RunAll(Start(clock), steps, s), row).pages;
            i <= k < j && pages[k].page.start <= x < pages[k].page.end
  {
    hide TimeframeDelta, RunAll, PossibleRun, InScan, OneScan;
    ReachedHistory(clock, steps, s, row);
    var w := RunAll(Start(clock), steps, s);
    var (t, h) := (w.db.targets[row], HistoryOf(w, row));
    k := ScanCovers(h.pages, i, j, TimeframeDelta(t.feed.timeframe).value, s, x);
  }
}
