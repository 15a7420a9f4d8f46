/** What a committed pass does to each event of its batch and to each notification, read off the
    sendings it made. */
module OutboxOutcomes {
  import opened Wrappers
  import opened Outbox
  import opened OutboxRuns

  // ----- the outcome of an event -----

  /** The sendings a pass makes for the n-th event of its batch. */
  function MadeFor(w: World, pass: Pass, n: nat): seq<Sending>
    requires Claimable(w.tables, pass) && n < |pass.batch|
  {
    Since(DeliverBatch(w.tables, w.sent, pass, n).1, DeliverBatch(w.tables, w.sent, pass, n + 1).1)
  }

  predicate AllWent(sendings: seq<Sending>) { forall i :: 0 <= i < |sendings| ==> sendings[i].ok }

  /** Seconds until the next try, by the number of tries that failed before this one. */
  const WAITS: seq<int> := [60, 120, 240, 480]

  /** Published if every sending went through; otherwise one attempt more, and the fifth was the last. */
  predicate SettledBy(made: seq<Sending>, e: OutboxEvent, after: OutboxEvent, now: int) {
    && after.correlation == e.correlation && after.about == e.about
    && (after.status == Published <==> AllWent(made))
    && (if AllWent(made) then
          after.attempts == e.attempts && after.availableAt == e.availableAt && after.publishedAt == Some(now)
        else
          && after.attempts == e.attempts + 1 && after.publishedAt == e.publishedAt
          && (after.status == Abandoned <==> after.attempts == 5)
          && (after.status == Pending ==> after.attempts <= 4 && after.availableAt == now + WAITS[after.attempts - 1]))
  }

  lemma SinceOneMore(before: seq<Sending>, after: seq<Sending>, s: Sending)
    requires before <= after
    ensures before <= after + [s] && Since(before, after + [s]) == Since(before, after) + [s]
  {
  }

  lemma AllWentOneMore(sendings: seq<Sending>, s: Sending)
    ensures AllWent(sendings + [s]) <==> AllWent(sendings) && s.ok
  {
    if AllWent(sendings + [s]) {
      assert (sendings + [s])[|sendings|] == s;
      assert forall i :: 0 <= i < |sendings| ==> (sendings + [s])[i] == sendings[i];
    }
  }

  lemma {:induction false} FailuresAreSeen(p: Progress, systemEvent: nat, recipients: seq<Recipient>, pass: Pass)
    ensures var q := TellAll(p, systemEvent, recipients, pass);
            && p.sent <= q.sent
            && (q.anyFailed <==> p.anyFailed || !AllWent(Since(p.sent, q.sent)))
  {
    if recipients != [] {
      var last := |recipients| - 1;
      var key := Key(systemEvent, recipients[last]);
      var q := TellAll(p, systemEvent, recipients[..last], pass);
      FailuresAreSeen(p, systemEvent, recipients[..last], pass);
      var r := Tell(q, key, pass);
      if r.sent != q.sent {
        var s := Sending(key, pass.succeeds(|q.sent|));
        SinceOneMore(p.sent, q.sent, s);
        AllWentOneMore(Since(p.sent, q.sent), s);
      }
    }
  }

  lemma WaitsDouble(attempts: nat)
    requires attempts < 4
    ensures BACKOFF_BASE_SECONDS * TwoTo(attempts + 1) == WAITS[attempts]
  {
    assert TwoTo(1) == 2 && TwoTo(2) == 4 && TwoTo(3) == 8 && TwoTo(4) == 16;
  }

  /** One event that has its system event. */
  lemma DeliverySettles(t: Tables, sent: seq<Sending>, id: nat, pass: Pass)
    requires id in t.events && t.events[id].status == Pending && t.events[id].attempts < MAX_ATTEMPTS && id < t.nextId
    requires t.events[id].correlation in t.systemEvents
    ensures var (u, more) := Outbox.Deliver(t, sent, id, pass);
            && id in u.events && SettledBy(Since(sent, more), t.events[id], u.events[id], pass.now)
            && TellsOwed(Since(sent, more), t.notifications,
                         Owes(t.systemEvents[t.events[id].correlation], pass.resolve(id), pass.adapters))
            && (u.events[id].status == Abandoned && t.events[id].about.None? ==> Announces(u, t.nextId, id, pass.now))
  {
    var e := t.events[id];
    TellAllTellsOwed(Told(t, sent), t.systemEvents[e.correlation], pass.resolve(id), pass);
    FailuresAreSeen(Told(t, sent), t.systemEvents[e.correlation], pass.resolve(id), pass);
    if e.attempts < 4 {
      WaitsDouble(e.attempts);
    }
    hide TellAll, TwoTo, AllWent, Since, TellsOwed, Owes;
  }

  lemma UnknownIsAbandoned(t: Tables, sent: seq<Sending>, id: nat, pass: Pass)
    requires id in t.events && t.events[id].correlation !in t.systemEvents
    ensures var (u, more) := Outbox.Deliver(t, sent, id, pass);
            && more == sent && u.notifications == t.notifications
            && u.events == t.events[id := t.events[id].(status := Abandoned, attempts := t.events[id].attempts + 1)]
  {
  }

  /** The rest of a batch leaves alone every event that is not in it. */
  lemma {:induction false} SettledStays(w: World, pass: Pass, n: nat, m: nat, id: nat)
    requires EventsOk(w) && Claimable(w.tables, pass) && n <= m <= |pass.batch|
    requires id in AfterBatch(w, pass, n).tables.events && forall i :: n <= i < m ==> pass.batch[i] != id
    ensures id in AfterBatch(w, pass, m).tables.events
    ensures AfterBatch(w, pass, m).tables.events[id] == AfterBatch(w, pass, n).tables.events[id]
    ensures forall c :: c in AfterBatch(w, pass, n).tables.systemEvents ==> c in AfterBatch(w, pass, m).tables.systemEvents
    decreases m
  {
    hide EventsOk, AfterOne, DeliverBatch;
    if n < m {
      SettledStays(w, pass, n, m - 1, id);
      BatchKeepsEvents(w, pass, m - 1);
      AfterOneLeavesOthers(AfterBatch(w, pass, m - 1), pass.batch[m - 1], pass, id);
      OneKeepsSystemEvents(AfterBatch(w, pass, m - 1), pass.batch[m - 1], pass);
    }
  }

  lemma BatchHolds(w: World, pass: Pass, n: nat)
    requires Claimable(w.tables, pass) && n < |pass.batch|
    requires pass.batch[n] in AfterBatch(w, pass, n).tables.events
    ensures pass.batch[n] in AfterBatch(w, pass, n + 1).tables.events
    ensures (AfterBatch(w, pass, n + 1).tables, AfterBatch(w, pass, n + 1).sent) ==
            Outbox.Deliver(AfterBatch(w, pass, n).tables, AfterBatch(w, pass, n).sent, pass.batch[n], pass)
  {
    hide TellAll;
  }

  /** The event that announces another was given up: pending, due at once, never tried, known. */
  predicate Announces(t: Tables, a: nat, id: nat, now: int) {
    a in t.events && t.events[a].correlation in t.systemEvents
    && t.events[a] == OutboxEvent(t.events[a].correlation, Some(id), Pending, 0, now, None)
  }

  /** What became of the n-th event of a batch: `after` is its row when the pass commits. */
  predicate Became(w: World, pass: Pass, n: nat, after: OutboxEvent)
    requires Claimable(w.tables, pass) && n < |pass.batch|
  {
    var (e, made, before) := (w.tables.events[pass.batch[n]], MadeFor(w, pass, n), AfterBatch(w, pass, n).tables);
    if e.correlation in w.tables.systemEvents then
      && SettledBy(made, e, after, pass.now)
      && e.correlation in before.systemEvents
      && TellsOwed(made, before.notifications,
                   Owes(before.systemEvents[e.correlation], pass.resolve(pass.batch[n]), pass.adapters))
    else made == [] && after == e.(status := Abandoned, attempts := e.attempts + 1)
  }

  ghost predicate NewlyAnnounced(w: World, t: Tables, id: nat, now: int) {
    exists a :: Announces(t, a, id, now) && a !in w.tables.events
  }

  ghost predicate Outcome(w: World, pass: Pass, n: nat, t: Tables)
    requires Claimable(w.tables, pass) && n < |pass.batch|
  {
    var id := pass.batch[n];
    && id in t.events && Became(w, pass, n, t.events[id])
    && (t.events[id].attempts == 5 && t.events[id].about.None? && t.events[id].correlation in w.tables.systemEvents ==>
          NewlyAnnounced(w, t, id, pass.now))
  }

  lemma OutcomeAtOnce(w: World, pass: Pass, n: nat)
    requires EventsOk(w) && Claimable(w.tables, pass) && n < |pass.batch|
    ensures Outcome(w, pass, n, AfterBatch(w, pass, n + 1).tables)
  {
    var id := pass.batch[n];
    BatchKeepsEvents(w, pass, n);
    StillToCome(w, pass, n);
    BatchKeepsSystemEvents(w, pass, n);
    var u := AfterBatch(w, pass, n);
    assert EventOk(u, id);
    assert forall x :: x in w.tables.events ==> EventOk(w, x);
    assert u.tables.nextId !in w.tables.events;
    assert EventOk(w, id);
    BatchHolds(w, pass, n);
    hide EventsOk, EventOk, AfterOne, DeliverBatch, AfterBatch, Since, SettledBy, Outbox.Deliver, TellsOwed, Owes;
    if u.tables.events[id].correlation in u.tables.systemEvents {
      DeliverySettles(u.tables, u.sent, id, pass);
    } else {
      UnknownIsAbandoned(u.tables, u.sent, id, pass);
      NothingSince(u.sent);
    }
  }

  lemma OutcomeStays(w: World, pass: Pass, n: nat)
    requires EventsOk(w) && Claimable(w.tables, pass) && n < |pass.batch|
    requires Outcome(w, pass, n, AfterBatch(w, pass, n + 1).tables)
    ensures Outcome(w, pass, n, AfterBatch(w, pass, |pass.batch|).tables)
  {
    var id := pass.batch[n];
    var u := AfterBatch(w, pass, n + 1).tables;
    var v := AfterBatch(w, pass, |pass.batch|).tables;
    hide EventsOk, DeliverBatch, AfterBatch, Became;
    SettledStays(w, pass, n + 1, |pass.batch|, id);
    if NewlyAnnounced(w, u, id, pass.now) {
      var a :| Announces(u, a, id, pass.now) && a !in w.tables.events;
      SettledStays(w, pass, n + 1, |pass.batch|, a);
      assert Announces(v, a, id, pass.now);
    }
  }

  /** Every event of the batch of a committed pass that has a system event is published, at the time
      of the pass, exactly if each of the sendings made for it went through; otherwise it has one
      attempt more and is abandoned with the fifth, and announced, or due again after a wait that
      doubles. The sendings are made to those owed one, and to all of them not told before. */
  lemma PassSettlesEvents(steps: seq<Step>, pass: Pass, n: nat)
    requires PossibleRun(START, steps) && Possible(RunAll(START, steps), Step.Deliver(pass)) && n < |pass.batch|
    ensures var w := RunAll(START, steps); Outcome(w, pass, n, Next(w, Step.Deliver(pass)).tables)
  {
    var w := RunAll(START, steps);
    ReachableIsFine(steps);
    hide PossibleRun, RunAll, EventsOk, AfterOne, DeliverBatch, AfterBatch, SettledBy, MadeFor, Counted;
    OutcomeAtOnce(w, pass, n);
    OutcomeStays(w, pass, n);
  }

  // ----- who is told -----

  predicate Asked(sendings: seq<Sending>, key: Key) { exists i :: 0 <= i < |sendings| && sendings[i].key == key }

  /** Sendings are made to nobody but those owed one, and to each of them who has not been told yet. */
  predicate TellsOwed(made: seq<Sending>, before: map<Key, Notification>, owed: seq<Key>) {
    && (forall i :: 0 <= i < |made| ==> made[i].key in owed)
    && (forall k :: 0 <= k < |owed| ==> Reached(before, owed[k]) || Asked(made, owed[k]))
  }

  lemma AskedOneMore(sendings: seq<Sending>, s: Sending, key: Key)
    ensures Asked(sendings + [s], key) <==> Asked(sendings, key) || s.key == key
  {
    assert (sendings + [s])[|sendings|] == s;
    assert forall i :: 0 <= i < |sendings| ==> (sendings + [s])[i] == sendings[i];
  }

  /** Nobody is reached but by a sending. */
  predicate ReachedByAsking(before: map<Key, Notification>, after: map<Key, Notification>, made: seq<Sending>) {
    forall key :: key in after && Reached(after, key) ==> Reached(before, key) || Asked(made, key)
  }

  lemma TellReaches(p: Progress, q: Progress, key: Key, pass: Pass)
    requires p.sent <= q.sent && ReachedByAsking(p.notifications, q.notifications, Since(p.sent, q.sent))
    ensures var r := Tell(q, key, pass);
            && p.sent <= r.sent && ReachedByAsking(p.notifications, r.notifications, Since(p.sent, r.sent))
            && (r.sent == q.sent || (Since(p.sent, r.sent) == Since(p.sent, q.sent) + [r.sent[|q.sent|]]
                                     && r.sent[|q.sent|].key == key && key.recipient.channel in pass.adapters))
            && (key.recipient.channel in pass.adapters ==> Reached(q.notifications, key) || Asked(Since(p.sent, r.sent), key))
  {
    var r := Tell(q, key, pass);
    if r.sent != q.sent {
      var s := Sending(key, pass.succeeds(|q.sent|));
      SinceOneMore(p.sent, q.sent, s);
      forall other
        ensures Asked(Since(p.sent, r.sent), other) <==> Asked(Since(p.sent, q.sent), other) || other == key
      {
        AskedOneMore(Since(p.sent, q.sent), s, other);
      }
    }
  }

  lemma {:induction false} TellAllTellsOwed(p: Progress, systemEvent: nat, recipients: seq<Recipient>, pass: Pass)
    ensures var q := TellAll(p, systemEvent, recipients, pass);
            && p.sent <= q.sent && ReachedByAsking(p.notifications, q.notifications, Since(p.sent, q.sent))
            && TellsOwed(Since(p.sent, q.sent), p.notifications, Owes(systemEvent, recipients, pass.adapters))
  {
    if recipients != [] {
      var last := |recipients| - 1;
      var key := Key(systemEvent, recipients[last]);
      var q := TellAll(p, systemEvent, recipients[..last], pass);
      TellAllTellsOwed(p, systemEvent, recipients[..last], pass);
      TellReaches(p, q, key, pass);
      hide ReachedByAsking, Reached, Tell, Since;
      var r := Tell(q, key, pass);
      if r.sent != q.sent {
        forall other
          ensures Asked(Since(p.sent, q.sent), other) ==> Asked(Since(p.sent, r.sent), other)
        {
          AskedOneMore(Since(p.sent, q.sent), r.sent[|q.sent|], other);
        }
      }
    }
  }

  lemma NothingSince(sent: seq<Sending>)
    ensures Since(sent, sent) == []
  {
  }

  // ----- what notifications record -----

  function Tries(sendings: seq<Sending>, key: Key): nat {
    if sendings == [] then 0
    else Tries(sendings[..|sendings| - 1], key) + if sendings[|sendings| - 1].key == key then 1 else 0
  }

  /** An entry after some sendings: untouched without a try, and else failed tries counted, its status
      that of the last try, its time that of the pass which got through. */
  predicate EntryFollows(before: map<Key, Notification>, after: map<Key, Notification>, made: seq<Sending>, key: Key,
        now: int)
  {
    if Tries(made, key) == 0 then (key in after <==> key in before) && (key in after ==> after[key] == before[key])
    else
      && key in after
      && var n := if key in before then before[key] else Notification(Queued, 0, None);
      && after[key].deliveryAttempts + Successes(made, key) == n.deliveryAttempts + Tries(made, key)
      && after[key].status == (if Successes(made, key) > 0 then Sent else Failed)
      && after[key].sentAt == (if Successes(made, key) > 0 then Some(now) else n.sentAt)
  }

  ghost predicate EntriesFollow(p: Progress, q: Progress, now: int) {
    && p.sent <= q.sent
    && forall key :: EntryFollows(p.notifications, q.notifications, Since(p.sent, q.sent), key, now)
  }

  lemma TriesOfOneMore(sendings: seq<Sending>, s: Sending, key: Key)
    ensures Tries(sendings + [s], key) == Tries(sendings, key) + if s.key == key then 1 else 0
    ensures Successes(sendings, key) <= Tries(sendings, key) ==> Successes(sendings + [s], key) <= Tries(sendings + [s], key)
  {
    SuccessesOfOneMore(sendings, s, key);
  }

  lemma OneEntryFollows(p: Progress, q: Progress, key: Key, pass: Pass)
    requires EntriesFollow(p, q, pass.now)
    ensures EntriesFollow(p, Tell(q, key, pass), pass.now)
  {
    var r := Tell(q, key, pass);
    if r.sent != q.sent {
      var s := Sending(key, pass.succeeds(|q.sent|));
      var made := Since(p.sent, q.sent);
      SinceOneMore(p.sent, q.sent, s);
      hide Since;
      forall other
        ensures EntryFollows(p.notifications, r.notifications, made + [s], other, pass.now)
      {
        assert EntryFollows(p.notifications, q.notifications, made, other, pass.now);
        TriesOfOneMore(made, s, other);
        SuccessesOfOneMore(made, s, other);
        NoSuccessWithoutTry(made, other);
        hide Tries, Successes;
      }
    }
  }

  lemma {:induction false} NoSuccessWithoutTry(made: seq<Sending>, key: Key)
    ensures Successes(made, key) <= Tries(made, key)
  {
    if made != [] {
      NoSuccessWithoutTry(made[..|made| - 1], key);
    }
  }

  lemma {:induction false} TellAllEntriesFollow(o: Progress, p: Progress, systemEvent: nat, recipients: seq<Recipient>,
        pass: Pass)
    requires EntriesFollow(o, p, pass.now)
    ensures EntriesFollow(o, TellAll(p, systemEvent, recipients, pass), pass.now)
    decreases |recipients|
  {
    hide EntriesFollow, Tell;
    if recipients != [] {
      var last := |recipients| - 1;
      TellAllEntriesFollow(o, p, systemEvent, recipients[..last], pass);
      OneEntryFollows(o, TellAll(p, systemEvent, recipients[..last], pass), Key(systemEvent, recipients[last]), pass);
    }
  }

  lemma NoEntryMoves(p: Progress, anyFailed: bool, now: int)
    ensures EntriesFollow(p, p.(anyFailed := anyFailed), now)
  {
    NothingSince(p.sent);
  }

  lemma {:induction false} BatchEntriesFollow(t: Tables, sent: seq<Sending>, pass: Pass, n: nat)
    requires n <= |pass.batch| && forall i :: 0 <= i < |pass.batch| ==> pass.batch[i] in t.events
    ensures var (u, more) := DeliverBatch(t, sent, pass, n); EntriesFollow(Told(t, sent), Told(u, more), pass.now)
  {
    hide EntriesFollow, TellAll;
    NoEntryMoves(Told(t, sent), false, pass.now);
    if n > 0 {
      BatchEntriesFollow(t, sent, pass, n - 1);
      var (u, more) := DeliverBatch(t, sent, pass, n - 1);
      var (id, e) := (pass.batch[n - 1], u.events[pass.batch[n - 1]]);
      if e.correlation in u.systemEvents {
        var system := u.systemEvents[e.correlation];
        TellAllEntriesFollow(Told(t, sent), Told(u, more), system, pass.resolve(id), pass);
        FailureIsNoEntry(Told(t, sent), TellAll(Told(u, more), system, pass.resolve(id), pass), pass.now);
      }
    }
  }

  lemma FailureIsNoEntry(p: Progress, q: Progress, now: int)
    requires EntriesFollow(p, q, now)
    ensures EntriesFollow(p, q.(anyFailed := false), now)
  {
  }

  /** After every committed pass each notification is what the sendings of the pass made of it. */
  lemma PassRecordsSendings(steps: seq<Step>, pass: Pass, key: Key)
    requires PossibleRun(START, steps) && Possible(RunAll(START, steps), Step.Deliver(pass))
    ensures var (w, v) := (RunAll(START, steps), Next(RunAll(START, steps), Step.Deliver(pass)));
            EntryFollows(w.tables.notifications, v.tables.notifications, Since(w.sent, v.sent), key, pass.now)
  {
    hide PossibleRun, RunAll, DeliverBatch, EntryFollows;
    var w := RunAll(START, steps);
    BatchEntriesFollow(w.tables, w.sent, pass, |pass.batch|);
  }

  /** Every notification counts the failed tries of committed passes. */
  ghost predicate AttemptsCounted(w: World) {
    forall key ::
      && (key in w.tables.notifications <==> Tries(w.committed, key) > 0)
      && (key in w.tables.notifications ==>
            w.tables.notifications[key].deliveryAttempts + Successes(w.committed, key) == Tries(w.committed, key))
  }

  lemma {:induction false} TriesOfBoth(a: seq<Sending>, b: seq<Sending>, key: Key)
    ensures Tries(a + b, key) == Tries(a, key) + Tries(b, key)
    decreases |b|
  {
    if b == [] {
      assert a + b == a;
    } else {
      assert (a + b)[..|a + b| - 1] == a + b[..|b| - 1];
      TriesOfBoth(a, b[..|b| - 1], key);
    }
  }

  lemma CommitCountsAttempts(w: World, v: World, now: int)
    requires AttemptsCounted(w) && EntriesFollow(Told(w.tables, w.sent), Told(v.tables, v.sent), now)
    requires v.committed == w.committed + Since(w.sent, v.sent)
    ensures AttemptsCounted(v)
  {
    var made := Since(w.sent, v.sent);
    hide Since, Tries, Successes;
    forall key
      ensures key in v.tables.notifications <==> Tries(v.committed, key) > 0
      ensures key in v.tables.notifications ==>
                v.tables.notifications[key].deliveryAttempts + Successes(v.committed, key) == Tries(v.committed, key)
    {
      assert EntryFollows(w.tables.notifications, v.tables.notifications, made, key, now);
      TriesOfBoth(w.committed, made, key);
      SuccessesOfBoth(w.committed, made, key);
      NoSuccessWithoutTry(made, key);
      NoSuccessWithoutTry(w.committed, key);
    }
  }

  lemma {:induction false} RunCountsAttempts(w: World, steps: seq<Step>)
    requires Inv(w) && AttemptsCounted(w) && PossibleRun(w, steps)
    ensures AttemptsCounted(RunAll(w, steps))
    decreases |steps|
  {
    hide Inv, DeliverBatch, EntriesFollow;
    if steps != [] {
      var step := steps[0];
      StepKeepsInv(w, step);
      if step.Deliver? {
        BatchEntriesFollow(w.tables, w.sent, step.pass, |step.pass.batch|);
        CommitCountsAttempts(w, Next(w, step), step.pass.now);
      }
      RunCountsAttempts(Next(w, step), steps[1..]);
    }
  }

  /** In every reachable state a notification exists exactly for those a committed pass tried to tell,
      and its attempts are the tries that failed. */
  lemma AttemptsAreFailures(steps: seq<Step>, key: Key)
    requires PossibleRun(START, steps)
    ensures var w := RunAll(START, steps);
            && (key in w.tables.notifications <==> Tries(w.committed, key) > 0)
            && (key in w.tables.notifications ==>
                  w.tables.notifications[key].deliveryAttempts == Tries(w.committed, key) - Successes(w.committed, key))
  {
    RunCountsAttempts(START, steps);
  }
}
