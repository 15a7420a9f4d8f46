/** Any sequence of producers, passes, acknowledgements and passes that die half-way. */
module OutboxRuns {
  import opened Wrappers
  import opened Outbox

  /** `sent` is every sending ever made, `committed` those of the passes that committed, `dead` those of
      each pass that died before, `owed`
      the notifications a published event had to make. */
  datatype World = World(
    tables: Tables, sent: seq<Sending>, committed: seq<Sending>, dead: seq<seq<Sending>>, owed: map<nat, seq<Key>>)

  /** A pass that dies has made the first `reach` of the sendings of its whole run; none of its table
      changes are kept. */
  datatype Step =
    | Produce(correlation: Option<nat>, recorded: bool, now: int)
    | Deliver(pass: Pass)
    | Die(pass: Pass, reach: nat)
    | Acknowledge(key: Key)

  const START: World := World(Tables(map[], map[], map[], 0), [], [], [], map[])

  /** The notifications an event owes: every recipient on a channel that has an adapter. */
  function Owes(systemEvent: nat, recipients: seq<Recipient>, adapters: set<string>): seq<Key> {
    if recipients == [] then []
    else
      var last := |recipients| - 1;
      Owes(systemEvent, recipients[..last], adapters)
      + if recipients[last].channel in adapters then [Key(systemEvent, recipients[last])] else []
  }

  predicate Possible(w: World, step: Step) {
    match step
    case Produce(correlation, _, _) => correlation.Some? ==> correlation.value < w.tables.nextId
    case Deliver(pass) => Claimable(w.tables, pass)
    case Die(pass, reach) =>
      Claimable(w.tables, pass) && reach <= |DeliverBatch(w.tables, w.sent, pass, |pass.batch|).1| - |w.sent|
    case Acknowledge(key) => key in w.tables.notifications && w.tables.notifications[key].status == Sent
  }

  /** The producer writes an outbox event, normally with a system event of the same correlation. */
  function AfterProduce(t: Tables, correlation: Option<nat>, recorded: bool, now: int): Tables {
    var c := if correlation.Some? then correlation.value else t.nextId;
    t.(events := t.events[t.nextId := OutboxEvent(c, None, Pending, 0, now, None)],
       systemEvents := if recorded && c !in t.systemEvents then t.systemEvents[c := t.nextId] else t.systemEvents,
       nextId := t.nextId + 1)
  }

  function AfterOne(w: World, id: nat, pass: Pass): World
    requires id in w.tables.events
  {
    var (t, sent) := Outbox.Deliver(w.tables, w.sent, id, pass);
    var e := w.tables.events[id];
    w.(tables := t, sent := sent,
       owed := if t.events[id].status == Published && e.correlation in w.tables.systemEvents
               then w.owed[id := Owes(w.tables.systemEvents[e.correlation], pass.resolve(id), pass.adapters)] else w.owed)
  }

  function AfterBatch(w: World, pass: Pass, n: nat): World
    requires n <= |pass.batch| && forall i :: 0 <= i < |pass.batch| ==> pass.batch[i] in w.tables.events
    ensures (AfterBatch(w, pass, n).tables, AfterBatch(w, pass, n).sent) == DeliverBatch(w.tables, w.sent, pass, n)
  {
    if n == 0 then w else AfterOne(AfterBatch(w, pass, n - 1), pass.batch[n - 1], pass)
  }

  /** The sendings made since. */
  function Since(before: seq<Sending>, after: seq<Sending>): seq<Sending> {
    if |before| <= |after| then after[|before|..] else []
  }

  function Next(w: World, step: Step): World
    requires Possible(w, step)
  {
    match step
    case Produce(correlation, recorded, now) => w.(tables := AfterProduce(w.tables, correlation, recorded, now))
    case Deliver(pass) =>
      var v := AfterBatch(w, pass, |pass.batch|);
      v.(committed := w.committed + Since(w.sent, v.sent))
    case Die(pass, reach) =>
      var sent := DeliverBatch(w.tables, w.sent, pass, |pass.batch|).1[..|w.sent| + reach];
      w.(sent := sent, dead := w.dead + [Since(w.sent, sent)])
    case Acknowledge(key) =>
      var seen := w.tables.notifications[key].(status := Acknowledged);
      w.(tables := w.tables.(notifications := w.tables.notifications[key := seen]))
  }

  // ----- one sending at a time -----

  /** How often a notification went through. */
  function Successes(sent: seq<Sending>, key: Key): nat {
    if sent == [] then 0
    else
      var last := sent[|sent| - 1];
      Successes(sent[..|sent| - 1], key) + if last.key == key && last.ok then 1 else 0
  }

  lemma SuccessesOfOneMore(sent: seq<Sending>, s: Sending, key: Key)
    ensures Successes(sent + [s], key) == Successes(sent, key) + if s.key == key && s.ok then 1 else 0
  {
  }

  lemma {:induction false} SuccessesOfPrefix(sent: seq<Sending>, n: nat, key: Key)
    requires n <= |sent|
    ensures Successes(sent[..n], key) <= Successes(sent, key)
    decreases |sent|
  {
    if n < |sent| {
      SuccessesOfPrefix(sent[..|sent| - 1], n, key);
      assert sent[..|sent| - 1][..n] == sent[..n];
    } else {
      assert sent[..n] == sent;
    }
  }

  function Flag(notifications: map<Key, Notification>, key: Key): nat { if Reached(notifications, key) then 1 else 0 }

  /** How many of the passes that died had told this person successfully. */
  function Deaths(dead: seq<seq<Sending>>, key: Key): nat {
    if dead == [] then 0
    else Deaths(dead[..|dead| - 1], key) + if Successes(dead[|dead| - 1], key) > 0 then 1 else 0
  }

  lemma {:induction false} SuccessesOfBoth(a: seq<Sending>, b: seq<Sending>, key: Key)
    ensures Successes(a + b, key) == Successes(a, key) + Successes(b, key)
    decreases |b|
  {
    if b == [] {
      assert a + b == a;
    } else {
      assert (a + b)[..|a + b| - 1] == a + b[..|b| - 1];
      SuccessesOfBoth(a, b[..|b| - 1], key);
    }
  }

  lemma SuccessesSince(before: seq<Sending>, after: seq<Sending>, key: Key)
    requires |before| <= |after| && after[..|before|] == before
    ensures Successes(after, key) == Successes(before, key) + Successes(Since(before, after), key)
  {
    assert after == before + Since(before, after);
    SuccessesOfBoth(before, Since(before, after), key);
  }

  /** A sending is made only to someone not reached yet, and reaches them exactly if it goes through;
      nobody reached is ever unreached. */
  ghost predicate Fair(p: Progress, q: Progress) {
    && |p.sent| <= |q.sent| && q.sent[..|p.sent|] == p.sent
    && (forall key :: Reached(p.notifications, key) ==> Reached(q.notifications, key))
    && (forall key ::
          Successes(q.sent, key) + Flag(p.notifications, key) == Successes(p.sent, key) + Flag(q.notifications, key))
  }

  lemma FairIsTransitive(p: Progress, q: Progress, r: Progress)
    requires Fair(p, q) && Fair(q, r)
    ensures Fair(p, r)
  {
  }

  lemma FairToItself(p: Progress, anyFailed: bool)
    ensures Fair(p, p.(anyFailed := anyFailed))
  {
  }

  lemma TellIsFair(p: Progress, key: Key, pass: Pass)
    ensures Fair(p, Tell(p, key, pass))
  {
    var q := Tell(p, key, pass);
    forall other
      ensures Successes(q.sent, other) + Flag(p.notifications, other) == Successes(p.sent, other) + Flag(q.notifications, other)
    {
      hide Successes;
      if q.sent != p.sent {
        SuccessesOfOneMore(p.sent, q.sent[|p.sent|], other);
      }
    }
    hide Successes;
  }

  /** Every recipient with an adapter is reached if nothing failed. */
  predicate AllReached(notifications: map<Key, Notification>, keys: seq<Key>) {
    forall i :: 0 <= i < |keys| ==> Reached(notifications, keys[i])
  }

  lemma {:induction false} TellAllIsFair(p: Progress, systemEvent: nat, recipients: seq<Recipient>, pass: Pass)
    ensures Fair(p, TellAll(p, systemEvent, recipients, pass))
    ensures !TellAll(p, systemEvent, recipients, pass).anyFailed ==>
              !p.anyFailed && AllReached(TellAll(p, systemEvent, recipients, pass).notifications, Owes(systemEvent,
                    recipients, pass.adapters))
  {
    if recipients == [] {
      FairToItself(p, p.anyFailed);
    } else {
      var last := |recipients| - 1;
      var q := TellAll(p, systemEvent, recipients[..last], pass);
      TellAllIsFair(p, systemEvent, recipients[..last], pass);
      TellIsFair(q, Key(systemEvent, recipients[last]), pass);
      FairIsTransitive(p, q, Tell(q, Key(systemEvent, recipients[last]), pass));
    }
  }

  function Told(t: Tables, sent: seq<Sending>): Progress { Progress(t.notifications, sent, false) }

  lemma DeliverIsFair(t: Tables, sent: seq<Sending>, id: nat, pass: Pass)
    requires id in t.events
    ensures var (u, more) := Outbox.Deliver(t, sent, id, pass); Fair(Told(t, sent), Told(u, more))
  {
    hide Fair, TellAll;
    var e := t.events[id];
    FairToItself(Told(t, sent), false);
    if e.correlation in t.systemEvents {
      var p := TellAll(Told(t, sent), t.systemEvents[e.correlation], pass.resolve(id), pass);
      TellAllIsFair(Told(t, sent), t.systemEvents[e.correlation], pass.resolve(id), pass);
      FairToItself(p, false);
      FairIsTransitive(Told(t, sent), p, p.(anyFailed := false));
    }
  }

  lemma {:induction false} BatchIsFair(t: Tables, sent: seq<Sending>, pass: Pass, n: nat)
    requires n <= |pass.batch| && forall i :: 0 <= i < |pass.batch| ==> pass.batch[i] in t.events
    ensures var (u, more) := DeliverBatch(t, sent, pass, n); Fair(Told(t, sent), Told(u, more))
  {
    hide Fair, Outbox.Deliver;
    if n == 0 {
      FairToItself(Told(t, sent), false);
    } else {
      BatchIsFair(t, sent, pass, n - 1);
      var (u, more) := DeliverBatch(t, sent, pass, n - 1);
      DeliverIsFair(u, more, pass.batch[n - 1], pass);
      var (v, most) := Outbox.Deliver(u, more, pass.batch[n - 1], pass);
      FairIsTransitive(Told(t, sent), Told(u, more), Told(v, most));
    }
  }

  // ----- what every run keeps -----

  predicate EventOk(w: World, id: nat)
    requires id in w.tables.events
  {
    var e := w.tables.events[id];
    && id < w.tables.nextId && e.correlation < w.tables.nextId
    && e.attempts <= MAX_ATTEMPTS && (e.status == Pending ==> e.attempts < MAX_ATTEMPTS)
    && (e.status == Published ==> id in w.owed && AllReached(w.tables.notifications, w.owed[id]))
    && (e.about.Some? ==>
          && e.about.value in w.tables.events
          && w.tables.events[e.about.value].status == Abandoned && w.tables.events[e.about.value].about.None?)
  }

  predicate OneAnnouncement(w: World, a: nat, b: nat)
    requires a in w.tables.events && b in w.tables.events
  {
    w.tables.events[a].about.Some? && w.tables.events[a].about == w.tables.events[b].about ==> a == b
  }

  /** Every success belongs to a committed pass, which stored it, or to a pass that died. */
  ghost predicate Counted(w: World) {
    forall key ::
      && Successes(w.sent, key) == Successes(w.committed, key) + Deaths(w.dead, key)
      && Successes(w.committed, key) == Flag(w.tables.notifications, key)
  }

  predicate EventsOk(w: World) {
    && (forall id :: id in w.tables.events ==> EventOk(w, id))
    && (forall a, b :: a in w.tables.events && b in w.tables.events ==> OneAnnouncement(w, a, b))
    && (forall c :: c in w.tables.systemEvents ==> c < w.tables.nextId)
  }

  ghost predicate Inv(w: World) { EventsOk(w) && Counted(w) }

  lemma CommittingKeepsCount(w: World, v: World)
    requires Counted(w) && Fair(Told(w.tables, w.sent), Told(v.tables, v.sent))
    requires v.dead == w.dead && v.committed == w.committed + Since(w.sent, v.sent)
    ensures Counted(v)
  {
    hide Successes, Deaths, Since, Reached;
    forall key
      ensures Successes(v.sent, key) == Successes(v.committed, key) + Deaths(v.dead, key)
      ensures Successes(v.committed, key) == Flag(v.tables.notifications, key)
    {
      SuccessesSince(w.sent, v.sent, key);
      SuccessesOfBoth(w.committed, Since(w.sent, v.sent), key);
      assert Successes(w.sent, key) == Successes(w.committed, key) + Deaths(w.dead, key);
    }
  }

  lemma ReachedStays(a: map<Key, Notification>, b: map<Key, Notification>, keys: seq<Key>)
    requires AllReached(a, keys) && forall key :: Reached(a, key) ==> Reached(b, key)
    ensures AllReached(b, keys)
  {
  }

  /** One pending event is settled: rewritten, its notifications only gained, what it owes noted. */
  predicate Settles(w: World, v: World, id: nat, e: OutboxEvent)
    requires id in w.tables.events
  {
    && v.tables.events == w.tables.events[id := e]
    && e.correlation == w.tables.events[id].correlation && e.about == w.tables.events[id].about
    && v.tables.nextId == w.tables.nextId && v.tables.systemEvents == w.tables.systemEvents
    && e.attempts <= MAX_ATTEMPTS && (e.status == Pending ==> e.attempts < MAX_ATTEMPTS)
    && (e.status == Published ==> id in v.owed && AllReached(v.tables.notifications, v.owed[id]))
    && (forall x :: x in w.owed && x != id ==> x in v.owed && v.owed[x] == w.owed[x])
  }

  lemma SettlingKeepsEvents(w: World, v: World, id: nat, e: OutboxEvent)
    requires EventsOk(w) && id in w.tables.events && w.tables.events[id].status == Pending && Settles(w, v, id, e)
    requires forall key :: Reached(w.tables.notifications, key) ==> Reached(v.tables.notifications, key)
    ensures EventsOk(v)
  {
    hide AllReached;
    forall x | x in v.tables.events
      ensures EventOk(v, x)
    {
      assert EventOk(w, x);
      if x != id && w.tables.events[x].status == Published {
        ReachedStays(w.tables.notifications, v.tables.notifications, w.owed[x]);
      }
    }
    forall a, b | a in v.tables.events && b in v.tables.events
      ensures OneAnnouncement(v, a, b)
    {
      assert OneAnnouncement(w, a, b);
    }
  }

  /** The give-up event of an abandoned event that has none yet. */
  lemma AnnouncingKeepsEvents(w: World, id: nat, now: int)
    requires EventsOk(w) && id in w.tables.events && w.tables.events[id].status == Abandoned && w.tables.events[id].about.None?
    requires forall x :: x in w.tables.events ==> w.tables.events[x].about != Some(id)
    ensures EventsOk(w.(tables := Announced(w.tables, id, now)))
  {
    var v := w.(tables := Announced(w.tables, id, now));
    hide AllReached;
    forall x | x in v.tables.events
      ensures EventOk(v, x)
    {
      if x in w.tables.events {
        assert EventOk(w, x);
      }
    }
    forall a, b | a in v.tables.events && b in v.tables.events
      ensures OneAnnouncement(v, a, b)
    {
      if a in w.tables.events && b in w.tables.events {
        assert EventOk(w, a) && EventOk(w, b) && OneAnnouncement(w, a, b);
      } else if a in w.tables.events {
        assert EventOk(w, a);
      } else if b in w.tables.events {
        assert EventOk(w, b);
      }
    }
  }

  /** The event as settled, before a give-up event is added. */
  lemma OneSettles(w: World, id: nat, pass: Pass) returns (v: World, e: OutboxEvent)
    requires EventsOk(w) && id in w.tables.events && w.tables.events[id].status == Pending
    ensures Settles(w, v, id, e)
    ensures forall key :: Reached(w.tables.notifications, key) ==> Reached(v.tables.notifications, key)
    ensures AfterOne(w, id, pass) == v
            || (e.status == Abandoned && e.about.None?
                  && AfterOne(w, id, pass) == v.(tables := Announced(v.tables, id, pass.now)))
  {
    var before := w.tables.events[id];
    assert EventOk(w, id);
    if before.correlation !in w.tables.systemEvents {
      v := AfterOne(w, id, pass);
      e := v.tables.events[id];
    } else {
      var system := w.tables.systemEvents[before.correlation];
      var p := TellAll(Told(w.tables, w.sent), system, pass.resolve(id), pass);
      TellAllIsFair(Told(w.tables, w.sent), system, pass.resolve(id), pass);
      hide TellAll, Successes, Owes, AllReached, Reached, TwoTo;
      e := Settled(before, p.anyFailed, pass.now);
      v := World(w.tables.(notifications := p.notifications, events := w.tables.events[id := e]), p.sent, w.committed, w.dead,
                 if e.status == Published then w.owed[id := Owes(system, pass.resolve(id), pass.adapters)] else w.owed);
    }
  }

  lemma AfterOneKeepsEvents(w: World, id: nat, pass: Pass)
    requires EventsOk(w) && id in w.tables.events && w.tables.events[id].status == Pending
    ensures EventsOk(AfterOne(w, id, pass))
  {
    var v, e := OneSettles(w, id, pass);
    SettlingKeepsEvents(w, v, id, e);
    if AfterOne(w, id, pass) != v {
      forall x | x in v.tables.events
        ensures v.tables.events[x].about != Some(id)
      {
        assert EventOk(w, x);
      }
      AnnouncingKeepsEvents(v, id, pass.now);
    }
  }

  lemma AfterOneLeavesOthers(w: World, id: nat, pass: Pass, other: nat)
    requires EventsOk(w) && id in w.tables.events && other in w.tables.events && other != id
    ensures other in AfterOne(w, id, pass).tables.events && AfterOne(w, id, pass).tables.events[other] == w.tables.events[other]
  {
  }

  lemma {:induction false} BatchKeepsEvents(w: World, pass: Pass, n: nat)
    requires EventsOk(w) && Claimable(w.tables, pass) && n <= |pass.batch|
    ensures EventsOk(AfterBatch(w, pass, n))
    ensures forall i :: n <= i < |pass.batch| ==>
                          pass.batch[i] in AfterBatch(w, pass, n).tables.events
                          && AfterBatch(w, pass, n).tables.events[pass.batch[i]] == w.tables.events[pass.batch[i]]
  {
    hide EventsOk, AfterOne;
    if n > 0 {
      BatchKeepsEvents(w, pass, n - 1);
      var u := AfterBatch(w, pass, n - 1);
      AfterOneKeepsEvents(u, pass.batch[n - 1], pass);
      forall i | n <= i < |pass.batch|
        ensures pass.batch[i] in AfterBatch(w, pass, n).tables.events
                && AfterBatch(w, pass, n).tables.events[pass.batch[i]] == w.tables.events[pass.batch[i]]
      {
        AfterOneLeavesOthers(u, pass.batch[n - 1], pass, pass.batch[i]);
      }
    }
  }

  lemma ProduceKeepsEvents(w: World, correlation: Option<nat>, recorded: bool, now: int)
    requires EventsOk(w) && (correlation.Some? ==> correlation.value < w.tables.nextId)
    ensures EventsOk(w.(tables := AfterProduce(w.tables, correlation, recorded, now)))
  {
  }

  lemma DeathsOfOneMore(dead: seq<seq<Sending>>, d: seq<Sending>, key: Key)
    ensures Deaths(dead + [d], key) == Deaths(dead, key) + if Successes(d, key) > 0 then 1 else 0
  {
    assert (dead + [d])[..|dead|] == dead;
  }

  /** The sendings of a pass that died: part of those of the whole pass, and so at most one success. */
  lemma DeadTold(before: seq<Sending>, whole: seq<Sending>, n: nat, key: Key)
    requires |before| <= n <= |whole| && whole[..|before|] == before
    requires Successes(whole, key) <= Successes(before, key) + 1
    ensures Successes(whole[..n], key) ==
            Successes(before, key) + if Successes(Since(before, whole[..n]), key) > 0 then 1 else 0
  {
    assert whole[..n][..|before|] == before;
    SuccessesOfPrefix(whole, n, key);
    SuccessesSince(before, whole[..n], key);
    hide Successes, Since;
  }

  /** A pass that dies has told each person at most once. */
  lemma LosingKeepsCount(w: World, v: World, u: Tables, whole: seq<Sending>, n: nat)
    requires Counted(w) && Fair(Told(w.tables, w.sent), Told(u, whole)) && |w.sent| <= n <= |whole|
    requires v == w.(sent := whole[..n], dead := w.dead + [Since(w.sent, whole[..n])])
    ensures Counted(v)
  {
    hide Successes, Reached, Since, Deaths;
    forall key
      ensures Successes(v.sent, key) == Successes(v.committed, key) + Deaths(v.dead, key)
      ensures Successes(v.committed, key) == Flag(v.tables.notifications, key)
    {
      assert Successes(whole, key) + Flag(w.tables.notifications, key) == Successes(w.sent, key) + Flag(u.notifications, key);
      DeadTold(w.sent, whole, n, key);
      DeathsOfOneMore(w.dead, Since(w.sent, v.sent), key);
      assert Successes(w.sent, key) == Successes(w.committed, key) + Deaths(w.dead, key);
    }
  }

  lemma DyingKeepsCount(w: World, pass: Pass, reach: nat)
    requires Counted(w) && Possible(w, Die(pass, reach))
    ensures Counted(Next(w, Die(pass, reach)))
  {
    hide Counted, Fair, DeliverBatch, Since;
    BatchIsFair(w.tables, w.sent, pass, |pass.batch|);
    var (u, whole) := DeliverBatch(w.tables, w.sent, pass, |pass.batch|);
    LosingKeepsCount(w, Next(w, Die(pass, reach)), u, whole, |w.sent| + reach);
  }

  lemma {:induction false} BatchKeepsCounters(w: World, pass: Pass, n: nat)
    requires n <= |pass.batch| && forall i :: 0 <= i < |pass.batch| ==> pass.batch[i] in w.tables.events
    ensures AfterBatch(w, pass, n).committed == w.committed && AfterBatch(w, pass, n).dead == w.dead
  {
    hide DeliverBatch, Outbox.Deliver;
    if n > 0 {
      BatchKeepsCounters(w, pass, n - 1);
    }
  }

  lemma StepKeepsInv(w: World, step: Step)
    requires Inv(w) && Possible(w, step)
    ensures Inv(Next(w, step))
  {
    hide Fair, EventOk, DeliverBatch, AfterOne, Successes;
    match step
    case Produce(correlation, recorded, now) => ProduceKeepsEvents(w, correlation, recorded, now);
    case Deliver(pass) =>
      BatchKeepsEvents(w, pass, |pass.batch|);
      BatchIsFair(w.tables, w.sent, pass, |pass.batch|);
      BatchKeepsCounters(w, pass, |pass.batch|);
      CommittingKeepsCount(w, Next(w, step));
      EventsIgnoreSending(AfterBatch(w, pass, |pass.batch|), Next(w, step));
    case Die(pass, reach) =>
      DyingKeepsCount(w, pass, reach);
      EventsIgnoreSending(w, Next(w, step));
    case Acknowledge(key) => AcknowledgeKeepsInv(w, key);
  }

  lemma EventsIgnoreSending(w: World, v: World)
    requires EventsOk(w) && v.tables == w.tables && v.owed == w.owed
    ensures EventsOk(v)
  {
  }

  lemma AcknowledgeKeepsInv(w: World, key: Key)
    requires Inv(w) && Possible(w, Acknowledge(key))
    ensures Inv(Next(w, Acknowledge(key)))
  {
  }

  // ----- runs -----

  predicate PossibleRun(w: World, steps: seq<Step>)
    decreases |steps|
  {
    steps == [] || (Possible(w, steps[0]) && PossibleRun(Next(w, steps[0]), steps[1..]))
  }

  function RunAll(w: World, steps: seq<Step>): World
    requires PossibleRun(w, steps)
    decreases |steps|
  {
    if steps == [] then w else RunAll(Next(w, steps[0]), steps[1..])
  }

  lemma {:induction false} RunKeepsInv(w: World, steps: seq<Step>)
    requires Inv(w) && PossibleRun(w, steps)
    ensures Inv(RunAll(w, steps))
    decreases |steps|
  {
    hide Inv, Next, Possible;
    if steps != [] {
      StepKeepsInv(w, steps[0]);
      RunKeepsInv(Next(w, steps[0]), steps[1..]);
    }
  }

  lemma ReachableIsFine(steps: seq<Step>)
    requires PossibleRun(START, steps)
    ensures Inv(RunAll(START, steps))
  {
    RunKeepsInv(START, steps);
  }

  /** Events of the batch that had a system event when the pass began. */
  function Known(t: Tables, pass: Pass, n: nat): nat
    requires n <= |pass.batch| && forall i :: 0 <= i < |pass.batch| ==> pass.batch[i] in t.events
  {
    if n == 0 then 0
    else Known(t, pass, n - 1) + if t.events[pass.batch[n - 1]].correlation in t.systemEvents then 1 else 0
  }

  /** A pass gives no event that existed before it a system event, nor takes one away. */
  predicate SameSystemEvents(t: Tables, u: Tables) {
    && t.nextId <= u.nextId
    && (forall c :: c in t.systemEvents ==> c in u.systemEvents)
    && (forall c :: c in u.systemEvents && c < t.nextId ==> c in t.systemEvents)
  }

  lemma OneKeepsSystemEvents(w: World, id: nat, pass: Pass)
    requires id in w.tables.events
    ensures SameSystemEvents(w.tables, AfterOne(w, id, pass).tables)
  {
    hide TellAll, Owes;
  }

  lemma SystemEventsCompose(t: Tables, u: Tables, v: Tables)
    requires SameSystemEvents(t, u) && SameSystemEvents(u, v)
    ensures SameSystemEvents(t, v)
  {
  }

  /** A pass neither records nor forgets system events of the events it was given. */
  lemma {:induction false} BatchKeepsSystemEvents(w: World, pass: Pass, n: nat)
    requires n <= |pass.batch| && forall i :: 0 <= i < |pass.batch| ==> pass.batch[i] in w.tables.events
    ensures SameSystemEvents(w.tables, AfterBatch(w, pass, n).tables)
  {
    if n > 0 {
      hide AfterOne, DeliverBatch;
      var u := AfterBatch(w, pass, n - 1);
      BatchKeepsSystemEvents(w, pass, n - 1);
      OneKeepsSystemEvents(u, pass.batch[n - 1], pass);
      hide SameSystemEvents;
      SystemEventsCompose(w.tables, u.tables, AfterOne(u, pass.batch[n - 1], pass).tables);
    }
  }

  lemma StillToCome(w: World, pass: Pass, n: nat)
    requires EventsOk(w) && Claimable(w.tables, pass) && n < |pass.batch|
    ensures var (u, id) := (DeliverBatch(w.tables, w.sent, pass, n).0, pass.batch[n]);
            && id in u.events
            && (u.events[id].correlation in u.systemEvents <==> w.tables.events[id].correlation in w.tables.systemEvents)
  {
    var id := pass.batch[n];
    assert EventOk(w, id);
    hide EventsOk, AfterBatch, DeliverBatch;
    BatchKeepsEvents(w, pass, n);
    BatchKeepsSystemEvents(w, pass, n);
    assert AfterBatch(w, pass, n).tables == DeliverBatch(w.tables, w.sent, pass, n).0;
    assert AfterBatch(w, pass, n).tables.events[id] == w.tables.events[id];
  }

  /** The number a pass returns is that of its events that have a system event; the others were
      abandoned. */
  lemma {:induction false} ProcessedAreKnown(w: World, pass: Pass, n: nat)
    requires EventsOk(w) && Claimable(w.tables, pass) && n <= |pass.batch|
    ensures Processed(w.tables, w.sent, pass, n) == Known(w.tables, pass, n)
  {
    hide EventsOk, DeliverBatch;
    if n > 0 {
      ProcessedAreKnown(w, pass, n - 1);
      StillToCome(w, pass, n - 1);
    }
  }

  /** A published event has reached everyone it owed a notification. */
  lemma PublishedReachedEveryone(steps: seq<Step>, id: nat, i: nat)
    requires PossibleRun(START, steps) && id in RunAll(START, steps).tables.events
    requires RunAll(START, steps).tables.events[id].status == Published
    ensures var w := RunAll(START, steps);
            id in w.owed && (i < |w.owed[id]| ==> Reached(w.tables.notifications, w.owed[id][i]))
  {
    ReachableIsFine(steps);
    assert EventOk(RunAll(START, steps), id);
  }

  /** How often a person has been told: once if a committed pass told them, which is then stored, and
      once for each pass that died after telling them. So they are told at most once if and only if
      that is the case for at most one of these. */
  lemma ToldExactly(steps: seq<Step>, key: Key)
    requires PossibleRun(START, steps)
    ensures var w := RunAll(START, steps);
            && Successes(w.sent, key) == Successes(w.committed, key) + Deaths(w.dead, key)
            && Successes(w.committed, key) <= 1 && (Successes(w.committed, key) == 1 <==> Reached(w.tables.notifications, key))
            && (Successes(w.sent, key) <= 1 <==>
                  Deaths(w.dead, key) == 0 || (Deaths(w.dead, key) == 1 && Successes(w.committed, key) == 0))
  {
    ReachableIsFine(steps);
    hide Successes, Deaths, Reached;
    var w := RunAll(START, steps);
    assert Successes(w.sent, key) == Successes(w.committed, key) + Deaths(w.dead, key);
  }

  /** Everyone has an adapter, and every sending goes through. */
  function PassFor(person: Recipient): Pass {
    Pass(0, [0], (id: nat) => [person], {person.channel}, (n: nat) => true)
  }

  /** One event, whose only recipient has not been told. */
  const PRODUCED: World := World(
    Tables(map[0 := OutboxEvent(0, None, Pending, 0, 0, None)], map[0 := 0], map[], 1), [], [], [], map[])

  lemma PassSendsOnce(person: Recipient, sent: seq<Sending>)
    ensures Claimable(PRODUCED.tables, PassFor(person))
    ensures DeliverBatch(PRODUCED.tables, sent, PassFor(person), 1).1 == sent + [Sending(Key(0, person), true)]
  {
    var pass := PassFor(person);
    BatchStep(PRODUCED.tables, sent, pass, 0);
    OneSending(Told(PRODUCED.tables, sent), person, pass);
    hide TellAll;
  }

  lemma DyingPass(person: Recipient)
    ensures Possible(PRODUCED, Die(PassFor(person), 1))
    ensures var v := Next(PRODUCED, Die(PassFor(person), 1));
            v.sent == [Sending(Key(0, person), true)] && v.tables == PRODUCED.tables
  {
    PassSendsOnce(person, []);
    hide DeliverBatch;
    assert [] + [Sending(Key(0, person), true)] == [Sending(Key(0, person), true)];
  }

  lemma NextPass(w: World, person: Recipient)
    requires w.tables == PRODUCED.tables
    ensures Possible(w, Deliver(PassFor(person)))
    ensures Next(w, Deliver(PassFor(person))).sent == w.sent + [Sending(Key(0, person), true)]
  {
    PassSendsOnce(person, w.sent);
    hide DeliverBatch, AfterOne;
  }

  /** One pass that dies after its sending, and the next tells the same person again. */
  lemma DyingTellsTwice(person: Recipient)
    ensures var steps := [Produce(None, true, 0), Die(PassFor(person), 1), Deliver(PassFor(person))];
            PossibleRun(START, steps) && Successes(RunAll(START, steps).sent, Key(0, person)) == 2
  {
    var steps := [Produce(None, true, 0), Die(PassFor(person), 1), Deliver(PassFor(person))];
    var once := [Sending(Key(0, person), true)];
    assert Next(START, steps[0]) == PRODUCED && Possible(START, steps[0]);
    DyingPass(person);
    var w2 := Next(PRODUCED, steps[1]);
    NextPass(w2, person);
    var w3 := Next(w2, steps[2]);
    SuccessesOfOneMore([], once[0], Key(0, person));
    SuccessesOfOneMore(once, once[0], Key(0, person));
    assert [] + [once[0]] == once;
    hide Next, Possible, Successes;
    assert steps[1..] == [steps[1], steps[2]] && steps[1..][1..] == [steps[2]] && steps[1..][1..][1..] == [];
    assert RunAll(w3, []) == w3 && PossibleRun(w3, []);
    assert RunAll(w2, [steps[2]]) == w3 && PossibleRun(w2, [steps[2]]);
    assert RunAll(PRODUCED, steps[1..]) == w3 && PossibleRun(PRODUCED, steps[1..]);
  }

  lemma OneSending(p: Progress, person: Recipient, pass: Pass)
    requires p.notifications == map[] && pass.adapters == {person.channel} && pass.succeeds(|p.sent|)
    ensures TellAll(p, 0, [person], pass).sent == p.sent + [Sending(Key(0, person), true)]
    ensures TellAll(p, 0, [person], pass).anyFailed == p.anyFailed
  {
  }

  // ----- giving up is never silent -----

  ghost predicate HasAnnouncement(t: Tables, id: nat) {
    exists a :: a in t.events && t.events[a].about == Some(id)
  }

  /** A retried event has its system event; an event given up after all attempts is announced. */
  ghost predicate Loud(t: Tables, id: nat)
    requires id in t.events
  {
    var e := t.events[id];
    && (e.status == Pending && e.attempts > 0 ==> e.correlation in t.systemEvents)
    && (e.status == Abandoned && e.attempts == MAX_ATTEMPTS && e.about.None? ==> HasAnnouncement(t, id))
  }

  ghost predicate AllLoud(t: Tables) { forall id :: id in t.events ==> Loud(t, id) }

  /** Events and system events stay, and no event changes what it is about. */
  predicate Extends(t: Tables, u: Tables) {
    && (forall c :: c in t.systemEvents ==> c in u.systemEvents)
    && (forall a :: a in t.events ==> a in u.events && u.events[a].about == t.events[a].about)
  }

  lemma LoudStays(t: Tables, u: Tables, id: nat)
    requires id in t.events && Loud(t, id) && Extends(t, u) && u.events[id] == t.events[id]
    ensures Loud(u, id)
  {
  }

  lemma OneExtends(w: World, id: nat, pass: Pass)
    requires EventsOk(w) && id in w.tables.events
    ensures Extends(w.tables, AfterOne(w, id, pass).tables)
    ensures forall x :: x in w.tables.events && x != id ==> AfterOne(w, id, pass).tables.events[x] == w.tables.events[x]
  {
    assert forall x :: x in w.tables.events ==> EventOk(w, x);
    hide TellAll, EventOk, Owes, TwoTo;
  }

  lemma OneStaysLoud(w: World, id: nat, pass: Pass)
    requires EventsOk(w) && AllLoud(w.tables) && id in w.tables.events && w.tables.events[id].status == Pending
    ensures AllLoud(AfterOne(w, id, pass).tables)
  {
    var t := w.tables;
    var u := AfterOne(w, id, pass).tables;
    OneExtends(w, id, pass);
    assert Loud(t, id) && EventOk(w, id);
    hide TellAll, EventOk, Owes, TwoTo, EventsOk;
    forall x | x in u.events
      ensures Loud(u, x)
    {
      if x in t.events && x != id {
        LoudStays(t, u, x);
      } else if x == id && u.events[id].status == Abandoned && u.events[id].attempts == MAX_ATTEMPTS
            && u.events[id].about.None? {
        assert t.nextId in u.events && u.events[t.nextId].about == Some(id);
      }
    }
  }

  lemma {:induction false} BatchStaysLoud(w: World, pass: Pass, n: nat)
    requires EventsOk(w) && AllLoud(w.tables) && Claimable(w.tables, pass) && n <= |pass.batch|
    ensures AllLoud(AfterBatch(w, pass, n).tables)
  {
    hide EventsOk, AfterOne, AllLoud, DeliverBatch;
    if n > 0 {
      var u := AfterBatch(w, pass, n - 1);
      BatchStaysLoud(w, pass, n - 1);
      BatchKeepsEvents(w, pass, n - 1);
      assert u.tables.events[pass.batch[n - 1]] == w.tables.events[pass.batch[n - 1]];
      OneStaysLoud(u, pass.batch[n - 1], pass);
    }
  }

  lemma StepStaysLoud(w: World, step: Step)
    requires Inv(w) && AllLoud(w.tables) && Possible(w, step)
    ensures AllLoud(Next(w, step).tables)
  {
    var t := w.tables;
    var u := Next(w, step).tables;
    match step
    case Produce(correlation, recorded, now) =>
      assert forall x :: x in t.events ==> x < t.nextId by {
        assert forall x :: x in t.events ==> EventOk(w, x);
      }
      forall x | x in u.events
        ensures Loud(u, x)
      {
        if x in t.events {
          LoudStays(t, u, x);
        }
      }
    case Deliver(pass) => BatchStaysLoud(w, pass, |pass.batch|);
    case Die(_, _) =>
    case Acknowledge(_) =>
      forall x | x in u.events
        ensures Loud(u, x)
      {
        LoudStays(t, u, x);
      }
  }

  lemma {:induction false} RunStaysLoud(w: World, steps: seq<Step>)
    requires Inv(w) && AllLoud(w.tables) && PossibleRun(w, steps)
    ensures AllLoud(RunAll(w, steps).tables)
    decreases |steps|
  {
    hide Inv, AllLoud, Next, Possible;
    if steps != [] {
      StepKeepsInv(w, steps[0]);
      StepStaysLoud(w, steps[0]);
      RunStaysLoud(Next(w, steps[0]), steps[1..]);
    }
  }

  /** An event that failed MAX_ATTEMPTS times is announced, unless it is an announcement itself. */
  lemma GivingUpIsAnnounced(steps: seq<Step>, id: nat)
    requires PossibleRun(START, steps) && id in RunAll(START, steps).tables.events
    ensures var t := RunAll(START, steps).tables;
            t.events[id].status == Abandoned && t.events[id].attempts == MAX_ATTEMPTS && t.events[id].about.None? ==>
                  HasAnnouncement(t, id)
  {
    RunStaysLoud(START, steps);
    assert Loud(RunAll(START, steps).tables, id);
  }

  /** No event is tried more than MAX_ATTEMPTS times, at most one give-up event tells about an event,
      only about one that was abandoned, and none about a give-up event. */
  lemma GivenUpOnce(steps: seq<Step>, a: nat, b: nat)
    requires PossibleRun(START, steps) && a in RunAll(START, steps).tables.events && b in RunAll(START, steps).tables.events
    ensures var events := RunAll(START, steps).tables.events;
            && events[a].attempts <= MAX_ATTEMPTS && (events[a].status == Pending ==> events[a].attempts < MAX_ATTEMPTS)
            && (events[a].about.Some? ==>
                  && events[a].about.value in events && events[events[a].about.value].status == Abandoned
                  && events[events[a].about.value].about.None?
                  && (events[b].about == events[a].about ==> a == b))
  {
    ReachableIsFine(steps);
    assert EventOk(RunAll(START, steps), a) && OneAnnouncement(RunAll(START, steps), a, b);
  }
}
