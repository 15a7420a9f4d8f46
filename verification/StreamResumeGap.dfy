/** Runs in which a client is handed to a new incarnation of its feed and then misses an event that no
    message ever announces: it still sends the sequence number it reached on the old incarnation, and
    the resume decision takes that number for one of the new one. A shipped client never lowers its
    number; a documented one does, but the next heartbeat gives it the old number back. */
module StreamResumeGap {
  import opened Wrappers
  import opened CandleStream
  import opened StreamProtocol
  import opened StreamDelivery
  import opened StreamDeliveryProofs
  import FeedLifecycle

  const KEY: StreamFeedKey := StreamFeedKey("oanda", "USD_JPY", "M1")
  const OUTAGE: Report := Failure("upstream_lost", Disconnected)
  const FIRST: Event := Event(0, GapNotice("upstream_lost"))
  const LIMITS: Limits := Limits(4, 4)

  /** Feed 0 publishes one event, which the client receives; the client goes away and the feed is
      torn down. Feed 1 starts for the returning client, which leaves again; meanwhile feed 1
      publishes its first event; the client returns. */
  const VISIT: seq<Step> := [Connect(0, [OUTAGE], Started(0)), Receive, Receive, Drop]
  const TEARDOWN: seq<Step> := [HubStep(FeedLifecycle.Unsubscribed(KEY, 1)), HubStep(FeedLifecycle.GraceOver(0))]
  const AGAIN: seq<Step> := [HubStep(FeedLifecycle.Reported(KEY, OUTAGE)), Connect(2, [], Raised), Receive]

  /** The second visit lasts one heartbeat if the client is a documented one. */
  function SecondVisit(policy: Policy): seq<Step> {
    [Connect(1, [], Started(1)), Receive] + (if policy == Documented then [Beat, Receive] else []) + [Drop]
  }

  function Steps(policy: Policy): seq<Step> { VISIT + TEARDOWN + SecondVisit(policy) + AGAIN }

  function Seen(policy: Policy): Client { Client(policy, Some(0), Some(0), [FIRST], 1, [FIRST], 0) }

  function Moved(policy: Policy): Client { Client(policy, Some(0), Some(1), [FIRST], 2, [], 0) }

  /** The first connection, with the event its starter reported already replayed. */
  function Opened(policy: Policy): World {
    World(KEY, Visited(policy).hub, Visited(policy).history, NewClient(policy),
          Some(Session(1, 0, [StreamState(0, Fresh, 0), EventMessage(FIRST)], 0, true)))
  }

  /** After the first visit. */
  function Visited(policy: Policy): World {
    World(KEY, Hub(map[KEY := Feed(0, Some(0), Disconnected, 0, [FIRST], map[1 := []], None)], 2, map[], 0, {0}, []),
          map[0 := [FIRST]], Seen(policy), None)
  }

  /** After the teardown of feed 0. */
  function Gone(policy: Policy): World { World(KEY, Hub(map[], 2, map[], 1, {}, [0]), map[0 := [FIRST]], Seen(policy), None) }

  /** After the second visit, which only told the client to fill its gap, before anything is published. */
  function Silent(policy: Policy): World {
    World(KEY, Hub(map[KEY := Feed(1, Some(1), Starting, -1, [], map[2 := []], None)], 3, map[], 1, {1}, [0]),
          map[0 := [FIRST], 1 := []], Moved(policy), None)
  }

  /** After the first event of feed 1. */
  function FirstPublished(policy: Policy): World {
    World(KEY, Hub(map[KEY := Feed(1, Some(1), Disconnected, 0, [FIRST], map[2 := [Delivery(FIRST)]], None)], 3, map[],
                   1, {1}, [0]),
          map[0 := [FIRST], 1 := [FIRST]], Moved(policy), None)
  }

  /** After the third visit began. */
  function End(policy: Policy): World {
    World(KEY, Hub(map[KEY := Feed(1, Some(1), Disconnected, 0, [FIRST], map[2 := [Delivery(FIRST)], 3 := []], None)], 4,
                   map[], 1, {1}, [0]),
          map[0 := [FIRST], 1 := [FIRST]],
          Moved(policy).(maxSequence := if policy == Documented then None else Some(0)), Some(Session(3, 1, [], 0, true)))
  }

  predicate Reaches(w: World, steps: seq<Step>, v: World) {
    PossibleRun(w, steps, LIMITS) && RunAll(w, steps, LIMITS) == v
  }

  lemma OneStep(w: World, step: Step)
    requires Possible(w, step)
    ensures Reaches(w, [step], Next(w, step, LIMITS))
  {
    hide Next, Possible;
    assert [step][1..] == [];
    assert PossibleRun(Next(w, step, LIMITS), [], LIMITS);
    assert RunAll(Next(w, step, LIMITS), [], LIMITS) == Next(w, step, LIMITS);
  }

  lemma {:induction false} Joined(u: World, first: seq<Step>, v: World, rest: seq<Step>, w: World)
    requires Reaches(u, first, v) && Reaches(v, rest, w)
    ensures Reaches(u, first + rest, w)
    decreases |first|
  {
    hide Next, Possible;
    if first == [] {
      assert first + rest == rest;
    } else {
      Joined(Next(u, first[0], LIMITS), first[1..], v, rest, w);
      assert (first + rest)[0] == first[0] && (first + rest)[1..] == first[1..] + rest;
    }
  }

  lemma OneMore(w: World, steps: seq<Step>, v: World, step: Step)
    requires Reaches(w, steps, v) && Possible(v, step)
    ensures Reaches(w, steps + [step], Next(v, step, LIMITS))
  {
    OneStep(v, step);
    Joined(w, steps, v, [step], Next(v, step, LIMITS));
  }

  lemma FirstFeed()
    ensures PublishAll(NewFeed(0), [OUTAGE], LIMITS) == Feed(0, None, Disconnected, 0, [FIRST], map[], None)
    ensures LogOf([OUTAGE]) == [FIRST]
  {
    assert [OUTAGE][..0] == [];
    assert PublishAll(NewFeed(0), [], LIMITS) == NewFeed(0);
    assert AppendAndFanOut(Feed(0, None, Disconnected, 0, [], map[], None), FIRST, LIMITS).subscribers == map[];
  }

  lemma FirstConnection(policy: Policy)
    ensures var w0 := StartOf(KEY, policy); Possible(w0, VISIT[0]) && Next(w0, VISIT[0], LIMITS) == Opened(policy)
  {
    FirstFeed();
    hide PublishAll, LogOf;
    var w1 := Next(StartOf(KEY, policy), VISIT[0], LIMITS);
    assert w1.hub == Opened(policy).hub;
    assert w1.history == Opened(policy).history;
    assert w1.session.value.wire == Opened(policy).session.value.wire;
  }

  lemma FirstMessages(policy: Policy)
    ensures var w1 := Opened(policy);
            var w2 := Next(w1, Receive, LIMITS);
            var w3 := Next(w2, Receive, LIMITS);
            && Possible(w1, Receive) && Possible(w2, Receive) && Possible(w3, Drop) && Next(w3, Drop, LIMITS) == Visited(policy)
  {
  }

  lemma Visiting(policy: Policy)
    ensures Reaches(StartOf(KEY, policy), VISIT, Visited(policy))
  {
    hide Next, Possible, Reaches;
    FirstConnection(policy);
    FirstMessages(policy);
    var w0 := StartOf(KEY, policy);
    var w2 := Next(Opened(policy), Receive, LIMITS);
    OneStep(w0, VISIT[0]);
    OneMore(w0, [VISIT[0]], Opened(policy), Receive);
    OneMore(w0, [VISIT[0]] + [Receive], w2, Receive);
    OneMore(w0, [VISIT[0]] + [Receive] + [Receive], Next(w2, Receive, LIMITS), Drop);
    assert [VISIT[0]] + [Receive] + [Receive] + [Drop] == VISIT;
  }

  lemma Departure(policy: Policy)
    ensures var w := Visited(policy);
            var left := Next(w, TEARDOWN[0], LIMITS);
            && Possible(w, TEARDOWN[0]) && Possible(left, TEARDOWN[1]) && Next(left, TEARDOWN[1], LIMITS) == Gone(policy)
  {
    var w := Visited(policy);
    var left := Next(w, TEARDOWN[0], LIMITS);
    assert w.hub.feeds[KEY].subscribers - {1} == map[];
    assert left.hub.tasks == map[0 := KEY];
    assert Next(left, TEARDOWN[1], LIMITS).hub == Gone(policy).hub;
  }

  lemma Leaving(policy: Policy)
    ensures Reaches(Visited(policy), TEARDOWN, Gone(policy))
  {
    hide Next, Possible, Reaches;
    Departure(policy);
    OneStep(Visited(policy), TEARDOWN[0]);
    OneMore(Visited(policy), [TEARDOWN[0]], Next(Visited(policy), TEARDOWN[0], LIMITS), TEARDOWN[1]);
    assert [TEARDOWN[0]] + [TEARDOWN[1]] == TEARDOWN;
  }

  /** The second connection, once its only message has arrived. */
  function Told(policy: Policy): World {
    Silent(policy).(client := Moved(policy).(maxSequence := if policy == Documented then None else Some(0)),
                    session := Some(Session(2, 1, [], 0, true)))
  }

  lemma SecondConnection(policy: Policy)
    requires policy != Careful
    ensures var w1 := Next(Gone(policy), Connect(1, [], Started(1)), LIMITS);
            && Possible(Gone(policy), Connect(1, [], Started(1))) && Possible(w1, Receive)
            && Next(w1, Receive, LIMITS) == Told(policy)
  {
    assert PublishAll(NewFeed(1), [], LIMITS) == NewFeed(1) && LogOf([]) == [];
    var w1 := Next(Gone(policy), Connect(1, [], Started(1)), LIMITS);
    assert w1.session.value.wire == [StreamState(1, GapFillRequired, 0)];
    assert w1.hub == Told(policy).hub && w1.history == Told(policy).history;
  }

  /** The server repeats the number of the request in its heartbeat. */
  lemma HeartbeatReturnsNumber()
    ensures var w := Told(Documented);
            var beaten := Next(w, Beat, LIMITS);
            && Possible(w, Beat) && Possible(beaten, Receive)
            && Next(beaten, Receive, LIMITS) == w.(client := Moved(Documented))
  {
    var beaten := Next(Told(Documented), Beat, LIMITS);
    assert beaten.session.value.wire == [Heartbeat(0)];
    assert [Heartbeat(0)][1..] == [];
    assert Next(beaten, Receive, LIMITS).session == Told(Documented).session;
  }

  lemma Returning(policy: Policy)
    requires policy != Careful
    ensures Reaches(Gone(policy), SecondVisit(policy), Silent(policy))
  {
    hide Reaches;
    SecondConnection(policy);
    HeartbeatReturnsNumber();
    var told := Told(policy).(client := Moved(policy));
    assert Possible(told, Drop) && Next(told, Drop, LIMITS) == Silent(policy);
    hide Next, Possible;
    var w0 := Gone(policy);
    var connect := Connect(1, [], Started(1));
    var w1 := Next(w0, connect, LIMITS);
    OneStep(w0, connect);
    OneMore(w0, [connect], w1, Receive);
    if policy == Documented {
      OneMore(w0, [connect] + [Receive], Told(policy), Beat);
      OneMore(w0, [connect] + [Receive] + [Beat], Next(Told(policy), Beat, LIMITS), Receive);
      OneMore(w0, [connect] + [Receive] + [Beat] + [Receive], told, Drop);
      assert [connect] + [Receive] + [Beat] + [Receive] + [Drop] == SecondVisit(policy);
    } else {
      OneMore(w0, [connect] + [Receive], told, Drop);
      assert [connect] + [Receive] + [Drop] == SecondVisit(policy);
    }
  }

  lemma Publication(policy: Policy)
    ensures Possible(Silent(policy), AGAIN[0]) && Next(Silent(policy), AGAIN[0], LIMITS) == FirstPublished(policy)
  {
    var w := Next(Silent(policy), AGAIN[0], LIMITS);
    var v := FirstPublished(policy);
    var f := Silent(policy).hub.feeds[KEY];
    assert Offer(f.subscribers[2], FIRST, 4) == [Delivery(FIRST)];
    assert PublishTo(f, OUTAGE, LIMITS) == v.hub.feeds[KEY];
    assert w.hub == Publish(Silent(policy).hub, KEY, OUTAGE, LIMITS);
    assert w.history[1] == [] + [FIRST];
    assert w.hub.feeds[KEY].subscribers == v.hub.feeds[KEY].subscribers;
    assert w.hub == v.hub && w.history == v.history;
  }

  lemma ThirdConnection(policy: Policy)
    requires policy != Careful
    ensures Resume(FirstPublished(policy).client, Subscription(3, [FIRST], 1)).mode == Replayed
    ensures var w1 := Next(FirstPublished(policy), AGAIN[1], LIMITS);
            && Possible(FirstPublished(policy), AGAIN[1]) && Possible(w1, Receive) && Next(w1, Receive, LIMITS) == End(policy)
  {
    assert [FIRST][..0] == [];
    assert After([FIRST], 0) == [];
    var w1 := Next(FirstPublished(policy), AGAIN[1], LIMITS);
    assert w1.session.value.wire == [StreamState(1, Replayed, 1)];
    assert w1.hub.feeds[KEY].subscribers == End(policy).hub.feeds[KEY].subscribers;
  }

  lemma ReturningAgain(policy: Policy)
    requires policy != Careful
    ensures Reaches(Silent(policy), AGAIN, End(policy))
  {
    hide Next, Possible, Reaches;
    Publication(policy);
    ThirdConnection(policy);
    var w1 := Next(FirstPublished(policy), AGAIN[1], LIMITS);
    OneStep(Silent(policy), AGAIN[0]);
    OneMore(Silent(policy), [AGAIN[0]], FirstPublished(policy), AGAIN[1]);
    OneMore(Silent(policy), [AGAIN[0]] + [AGAIN[1]], w1, AGAIN[2]);
    assert [AGAIN[0]] + [AGAIN[1]] + [AGAIN[2]] == AGAIN;
  }

  lemma WholeRun(policy: Policy)
    requires policy != Careful
    ensures Reaches(StartOf(KEY, policy), Steps(policy), End(policy))
  {
    hide Reaches, SecondVisit, Visited, Gone, Silent, End;
    Visiting(policy);
    Leaving(policy);
    Returning(policy);
    ReturningAgain(policy);
    var w0 := StartOf(KEY, policy);
    Joined(w0, VISIT, Visited(policy), TEARDOWN, Gone(policy));
    Joined(w0, VISIT + TEARDOWN, Gone(policy), SecondVisit(policy), Silent(policy));
    Joined(w0, VISIT + TEARDOWN + SecondVisit(policy), Silent(policy), AGAIN, End(policy));
  }

  /** Told "replayed", with a live connection and nothing in flight or queued, the client still
      lacks the first event of the feed it is on, whether it is a shipped or a documented one. */
  lemma UnnoticedGap(policy: Policy)
    requires policy != Careful
    ensures Reaches(StartOf(KEY, policy), Steps(policy), End(policy))
    ensures Resume(FirstPublished(policy).client, Subscription(3, [FIRST], 1)).mode == Replayed
    ensures var w := End(policy);
            && Pumping(w) && w.session.value.wire == [] && Queue(w) == []
            && w.client.feedStartedAt == Some(1) && w.history[1] == [FIRST] && w.client.stretch == []
            && !NothingMissed(w)
  {
    hide Reaches, Steps, Resume;
    WholeRun(policy);
    ThirdConnection(policy);
  }
}
