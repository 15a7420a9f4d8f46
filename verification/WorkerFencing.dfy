/** Fencing: at most one owner a feed, and a token that has lapsed never owns or commits again. */
module WorkerFencing {
  import opened Wrappers
  import opened WorkRows
  import opened Leases
  import opened Pages
  import opened WorkerRuns
  import opened WorkerSafety

  predicate AllNone(l: Lease) {
    l.owner.None? && l.token.None? && l.until.None? && l.heartbeatAt.None? && l.kind.None? && l.workId.None?
  }

  predicate AllSome(l: Lease) {
    l.owner.Some? && l.token.Some? && l.until.Some? && l.heartbeatAt.Some? && l.kind.Some? && l.workId.Some?
  }

  /** In every reachable state the six owner fields of a lease are all null or all set, and then it
      runs out after its last heartbeat. */
  lemma LeaseIsWhole(clock: int, steps: seq<Step>, s: Settings, feed: FeedKey)
    requires s.Sound() && PossibleRun(Start(clock), steps, s)
    requires feed in RunAll(Start(clock), steps, s).db.leases
    ensures var l := RunAll(Start(clock), steps, s).db.leases[feed];
            AllNone(l) || (AllSome(l) && l.until.value > l.heartbeatAt.value)
  {
    RunKeepsInv(Start(clock), steps, s);
    assert FeedOk(RunAll(Start(clock), steps, s), feed, s);
  }

  /** Backfill or polling, at most one claim owns a feed at a time. */
  lemma OneOwnerPerFeed(db: Db, a: LeaseClaim, b: LeaseClaim, now: int)
    requires Holds(db, a, now) && Holds(db, b, now) && a.work.feed == b.work.feed
    ensures SameWork(a, b)
  {
  }

  /** And a token owns at most one feed. */
  lemma OneFeedPerToken(w: World, a: LeaseClaim, b: LeaseClaim, now: int, s: Settings)
    requires Inv(w, s) && Holds(w.db, a, now) && Holds(w.db, b, now) && a.token == b.token
    ensures SameWork(a, b)
  {
  }

  /** For a rightful owner the cursor check of a guarded write never fails: the write is refused
      only because the lease is gone or the target was stopped. */
  lemma GuardFailsOnlyWithoutOwnership(w: World, token: nat, now: int, s: Settings)
    requires Inv(w, s) && token in w.issued
    ensures var c := w.issued[token];
            && (Holds(w.db, c, now) ==> Find(w.db, c.work).Some? && Find(w.db, c.work).value.nextFetchAt == c.nextFetchAt)
            && (Guarded(w.db, c, now).Ok? <==> Holds(w.db, c, now) && Find(w.db, c.work).value.Active())
            && (token in w.pages && Holds(w.db, c, now) ==> w.pages[token].claim == c)
  {
  }

  /** An interrupted target waits: the claim that finds its lease expired charges the interruption
      and leaves without the target, whose retry lies in the future. */
  lemma InterruptedTargetWaits(w: World, work: WorkRef, owner: nat, now: int, token: nat, s: Settings)
    requires Inv(w, s) && work.feed in w.db.leases
    requires var l := w.db.leases[work.feed]; l.token.Some? && l.until.Some? && l.until.value <= now
    requires var l := w.db.leases[work.feed]; l.kind == Some(work.row.kind) && l.workId == Some(work.row.id)
    ensures Recover(w.db, work.feed, now).Ok?
    ensures Claim(w.db, work, owner, now, token, s.duration) == (Recover(w.db, work.feed, now).value, Ok(None))
  {
    hide PageFits, RowOk;
    assert FeedOk(w, work.feed, s);
    var t := Find(w.db, work).value;
    RetryIsLater(t.failures + 1, 0, work.row.id);
    hide RetryDelay;
  }

  /** A retry waits at least half a minute, two after the first failure, and at least as long as
      asked; rows spread over less than six seconds more. */
  lemma RetryIsLater(failures: nat, least: int, id: nat)
    ensures RetryDelay(failures, least, id) >= 30 * SECOND && RetryDelay(failures, least, id) >= least
    ensures failures != 1 ==> RetryDelay(failures, least, id) >= 120 * SECOND
    ensures least <= 30 * SECOND && failures == 1 ==> RetryDelay(failures, least, id) < 36 * SECOND
  {
  }

  // ----- a lapsed token stays lapsed -----

  predicate Held(w: World, token: nat) {
    token in w.issued && Holds(w.db, w.issued[token], w.clock)
  }

  /** What a step can do to the lease of a feed. */
  predicate LeaseMoves(w: World, v: World, feed: FeedKey, at: int)
    requires feed in v.db.leases
  {
    var l := v.db.leases[feed];
    || l == FREE
    || (feed in w.db.leases && l == w.db.leases[feed])
    || (l.token.Some? && l.token.value !in w.issued)
    || (l.token.Some? && l.token.value in w.issued && Holds(w.db, w.issued[l.token.value], at))
  }

  lemma LeaseClaimStep(w: World, work: WorkRef, owner: nat, now: int, token: nat, s: Settings, feed: FeedKey)
    requires token !in w.issued && feed in AfterClaim(w, work, owner, now, token, s).db.leases
    ensures LeaseMoves(w, AfterClaim(w, work, owner, now, token, s), feed, now)
  {
    hide Find, Interrupted, Started;
  }

  lemma LeaseCommitStep(w: World, step: Step, s: Settings, feed: FeedKey)
    requires Possible(w, step) && feed in Act(w, step, s).db.leases
    requires step.action.DoPrepare? || step.action.DoSave? || step.action.DoComplete? || step.action.DoFail?
    ensures LeaseMoves(w, Act(w, step, s), feed, step.at)
  {
    hide Guarded, Usable, PageFor, Scanning, Saved, FailedOnce;
  }

  lemma LeaseStep(w: World, step: Step, s: Settings, feed: FeedKey)
    requires TokensOk(w) && Possible(w, step) && feed in Act(w, step, s).db.leases
    ensures LeaseMoves(w, Act(w, step, s), feed, step.at)
  {
    hide AfterClaim, AfterPrepare, AfterSave, AfterComplete, AfterFail, Find, Interrupted;
    match step.action
    case DoClaim(work, owner, token) => LeaseClaimStep(w, work, owner, step.at, token, s, feed);
    case DoPrepare(_, _, _) => LeaseCommitStep(w, step, s, feed);
    case DoSave(_, _, _) => LeaseCommitStep(w, step, s, feed);
    case DoComplete(_, _) => LeaseCommitStep(w, step, s, feed);
    case DoFail(_, _) => LeaseCommitStep(w, step, s, feed);
    case _ =>
  }

  /** What a step can do to the claim of a token. */
  lemma ClaimStep(w: World, step: Step, s: Settings, token: nat)
    requires Inv(w, s) && Possible(w, step) && token in w.issued
    ensures var v := Act(w, step, s);
            && token in v.issued && SameWork(v.issued[token], w.issued[token])
            && (|| v.commits == w.commits
                || exists t :: t in w.issued && v.commits == w.commits + [t] && Holds(w.db, w.issued[t], step.at))
  {
    hide PageFits, RowOk, Usable, Scanning, Saved, FailedOnce, Interrupted, Started, LeasesOk, RowsOk;
    match step.action
    case DoPrepare(t, resolved, latest) =>
      if Prepare(w.db, w.issued[t], resolved, latest, s.chosen, step.at, step.now).Ok? {
        assert Act(w, step, s).commits == w.commits + [t];
      }
    case DoSave(t, points, resolved) =>
      if Save(w.db, w.pages[t], points, resolved, step.at, step.now).Ok? {
        assert Act(w, step, s).commits == w.commits + [t] && Holds(w.db, w.issued[t], step.at);
      }
    case DoComplete(t, resolved) =>
      if Complete(w.db, w.pages[t], resolved, step.at, step.now).Ok? {
        assert Act(w, step, s).commits == w.commits + [t] && Holds(w.db, w.issued[t], step.at);
      }
    case DoFail(t, failure) =>
      if Fail(w.db, w.issued[t], failure, step.at, step.now).Ok? {
        assert Act(w, step, s).commits == w.commits + [t];
      }
    case _ =>
  }

  predicate Silent(w: World, v: World, token: nat) {
    && |w.commits| <= |v.commits| && v.commits[..|w.commits|] == w.commits
    && forall i :: |w.commits| <= i < |v.commits| ==> v.commits[i] != token
  }

  lemma LapsedStep(w: World, step: Step, s: Settings, token: nat)
    requires Inv(w, s) && s.Sound() && Possible(w, step) && token in w.issued && !Held(w, token)
    ensures token in Next(w, step, s).issued && !Held(Next(w, step, s), token)
    ensures Silent(w, Next(w, step, s), token)
  {
    ClaimStep(w, step, s, token);
    var v := Act(w, step, s);
    var feed := w.issued[token].work.feed;
    if feed in v.db.leases {
      LeaseStep(w, step, s, feed);
    }
    hide Act, PageFits, RowOk;
    assert TokensOk(w);
  }

  /** Over any run: once a token no longer owns its lease (released, recovered, or run out), it never
      owns it again, and no write of its worker goes through. Read backwards: whoever commits has
      owned its lease at every moment since it was claimed. */
  lemma {:induction false} LapsedTokenNeverCommits(w: World, steps: seq<Step>, s: Settings, token: nat)
    requires Inv(w, s) && s.Sound() && PossibleRun(w, steps, s) && token in w.issued && !Held(w, token)
    ensures !Held(RunAll(w, steps, s), token) && Silent(w, RunAll(w, steps, s), token)
    decreases |steps|
  {
    hide Inv, Next, Held;
    if steps != [] {
      StepKeepsInv(w, steps[0], s);
      LapsedStep(w, steps[0], s, token);
      LapsedTokenNeverCommits(Next(w, steps[0], s), steps[1..], s, token);
    }
  }
}
