/** Exactly-once delivery to one client over all its connections. */
module StreamDeliveryProofs {
  import opened Wrappers
  import opened CandleStream
  import opened StreamProtocol
  import opened StreamDelivery
  import FeedLifecycle

  /** What the client received since it was last told to start over is one piece of the history of
      the feed it believes to be on, and it was told to start over before it received anything. */
  predicate Contiguous(c: Client, history: map<int, seq<Event>>) {
    && (c.feedStartedAt.None? ==> c.maxSequence.None? && c.received == [] && c.stretch == [] && c.notices == 0)
    && (c.notices == 0 ==> c.feedStartedAt.None?)
    && (c.notices <= 1 ==> c.received == c.stretch)
    && (c.feedStartedAt.Some? ==>
          && c.feedStartedAt.value in history
          && c.Next() <= |history[c.feedStartedAt.value]|
          && c.stretch == history[c.feedStartedAt.value][c.from..c.Next()])
  }

  /** The number the client remembers is the one before the event it needs next; a shipped client may
      also remember one so old that the ring buffer has already dropped the event after it. */
  predicate Remembered(c: Client, history: map<int, seq<Event>>, size: nat) {
    match c.policy
    case Careful => c.maxSequence == if c.stretch == [] then None else Some(c.Next() - 1)
    case Documented => false
    case Shipped =>
      && (c.maxSequence.None? ==> c.stretch == [])
      && (c.maxSequence.Some? && c.feedStartedAt.Some? && c.feedStartedAt.value in history ==>
            var m := c.maxSequence.value;
            m + 1 == c.Next() || (m + 1 < c.Next() && m + 1 < RingStart(history[c.feedStartedAt.value], size)))
  }

  predicate Fine(c: Client, history: map<int, seq<Event>>, size: nat, exact: bool) {
    Contiguous(c, history) && (exact ==> Remembered(c, history, size))
  }

  /** Fine now and after each message in flight. */
  predicate AllFine(c: Client, wire: seq<Message>, history: map<int, seq<Event>>, size: nat, exact: bool)
    decreases |wire|
  {
    && Fine(c, history, size, exact)
    && (wire == [] || AllFine(Deliver(c, wire[0]), wire[1..], history, size, exact))
  }

  /** The pump's `last_sequence` never gets ahead of what a shipped client will have received. */
  predicate LastTrue(last: int, end: Client) {
    end.policy == Shipped ==> last + 1 == end.Next() || (end.maxSequence.Some? && last <= end.maxSequence.value)
  }

  /** After everything in flight, what waits in the queue is exactly what the client still lacks. */
  predicate Aligned(w: World, end: Client)
    requires Pumping(w) && w.hub.feeds[w.key].startedAt in w.history
  {
    var f := w.hub.feeds[w.key];
    var log := w.history[f.startedAt];
    && f.startedAt == w.session.value.startedAt && end.feedStartedAt == Some(f.startedAt)
    && ((Queue(w) != [] && Queue(w)[0] == SubscriberOverflow)
        || (Waiting(Queue(w), log) && end.Next() + |Queue(w)| == |log|))
  }

  predicate SessionTrue(w: World, limits: Limits, exact: bool) {
    match w.session
    case None => Fine(w.client, w.history, limits.ringSize, exact)
    case Some(s) =>
      var end := DeliverAll(w.client, s.wire);
      && AllFine(w.client, s.wire, w.history, limits.ringSize, exact)
      && s.id < w.hub.nextSubscriber
      && (s.pumping ==> Pumping(w) && w.hub.feeds[w.key].startedAt in w.history && Aligned(w, end))
      && (s.pumping && exact ==> LastTrue(s.lastSequence, end))
  }

  /** With `exact`, moreover, the client remembers the right number. */
  predicate Inv(w: World, limits: Limits, exact: bool) {
    FeedTrue(w, limits) && SessionTrue(w, limits, exact)
  }

  // ----- histories only grow -----

  predicate Grown(earlier: map<int, seq<Event>>, later: map<int, seq<Event>>) {
    forall t :: t in earlier ==> t in later && earlier[t] <= later[t]
  }

  lemma FineGrows(c: Client, a: map<int, seq<Event>>, b: map<int, seq<Event>>, size: nat, exact: bool)
    requires Fine(c, a, size, exact) && Grown(a, b)
    ensures Fine(c, b, size, exact)
  {
    if c.feedStartedAt.Some? {
      var t := c.feedStartedAt.value;
      assert a[t] <= b[t];
      assert b[t][c.from..c.Next()] == a[t][c.from..c.Next()];
    }
  }

  lemma {:induction false} AllFineGrows(c: Client, wire: seq<Message>, a: map<int, seq<Event>>, b: map<int,
        seq<Event>>, size: nat, exact: bool)
    requires AllFine(c, wire, a, size, exact) && Grown(a, b)
    ensures AllFine(c, wire, b, size, exact)
    decreases |wire|
  {
    hide Fine, Grown, Deliver;
    FineGrows(c, a, b, size, exact);
    if wire != [] {
      AllFineGrows(Deliver(c, wire[0]), wire[1..], a, b, size, exact);
    }
  }

  // ----- one more message in flight -----

  lemma {:induction false} SendOne(c: Client, wire: seq<Message>, m: Message, history: map<int, seq<Event>>,
        size: nat, exact: bool)
    requires AllFine(c, wire, history, size, exact)
    requires Fine(Deliver(DeliverAll(c, wire), m), history, size, exact)
    ensures AllFine(c, wire + [m], history, size, exact)
    ensures DeliverAll(c, wire + [m]) == Deliver(DeliverAll(c, wire), m)
    decreases |wire|
  {
    hide Fine, Deliver;
    if wire == [] {
      assert wire + [m] == [m];
      assert [m][1..] == [];
      assert DeliverAll(Deliver(c, m), []) == Deliver(c, m);
    } else {
      SendOne(Deliver(c, wire[0]), wire[1..], m, history, size, exact);
      assert (wire + [m])[0] == wire[0];
      assert (wire + [m])[1..] == wire[1..] + [m];
    }
  }

  lemma {:induction false} EndIsFine(c: Client, wire: seq<Message>, history: map<int, seq<Event>>, size: nat, exact: bool)
    requires AllFine(c, wire, history, size, exact)
    ensures Fine(DeliverAll(c, wire), history, size, exact)
    decreases |wire|
  {
    hide Fine, Deliver;
    if wire != [] {
      EndIsFine(Deliver(c, wire[0]), wire[1..], history, size, exact);
    }
  }

  /** Receiving the event that is due keeps the client in order and its memory exact. */
  lemma EventIsFine(c: Client, e: Event, history: map<int, seq<Event>>, size: nat, exact: bool)
    requires Fine(c, history, size, exact) && c.feedStartedAt.Some?
    requires var log := history[c.feedStartedAt.value]; c.Next() < |log| && Numbered(log) && e == log[c.Next()]
    ensures var d := Deliver(c, EventMessage(e));
            && Fine(d, history, size, exact) && d.Next() == c.Next() + 1 && d.feedStartedAt == c.feedStartedAt
            && (exact ==> d.maxSequence == Some(c.Next()))
  {
  }

  lemma {:induction false} EventsAreFine(c: Client, events: seq<Event>, history: map<int, seq<Event>>, size: nat, exact: bool)
    requires Fine(c, history, size, exact) && c.feedStartedAt.Some?
    requires var log := history[c.feedStartedAt.value];
             Numbered(log) && c.Next() + |events| <= |log| && events == log[c.Next()..c.Next() + |events|]
    ensures var end := DeliverAll(c, Messages(events));
            && AllFine(c, Messages(events), history, size, exact)
            && end.Next() == c.Next() + |events| && end.feedStartedAt == c.feedStartedAt
    decreases |events|
  {
    if events != [] {
      var n := |events| - 1;
      var log := history[c.feedStartedAt.value];
      assert events[..n] == log[c.Next()..c.Next() + n] && events[n] == log[c.Next() + n];
      EventsAreFine(c, events[..n], history, size, exact);
      var end := DeliverAll(c, Messages(events[..n]));
      EndIsFine(c, Messages(events[..n]), history, size, exact);
      EventIsFine(end, events[n], history, size, exact);
      SendOne(c, Messages(events[..n]), EventMessage(events[n]), history, size, exact);
      assert Messages(events) == Messages(events[..n]) + [EventMessage(events[n])];
    }
  }

  // ----- hub events -----

  lemma HistoryGrows(w: World, e: FeedLifecycle.HubEvent, limits: Limits)
    requires PossibleHub(w, e)
    ensures Grown(w.history, AfterHub(w, e, limits).history)
  {
  }

  /** The live session's queue after a hub event: untouched, or offered the newly published event. */
  predicate QueueFollows(w: World, v: World, limits: Limits)
    requires Pumping(w) && w.hub.feeds[w.key].startedAt in w.history
  {
    && v.key == w.key && v.client == w.client && v.session == w.session
    && Pumping(v) && v.hub.feeds[v.key].startedAt == w.hub.feeds[w.key].startedAt
    && v.hub.nextSubscriber >= w.hub.nextSubscriber
    && var t := w.hub.feeds[w.key].startedAt;
    && t in v.history
    && (|| (v.history[t] == w.history[t] && Queue(v) == Queue(w))
        || (|v.history[t]| == |w.history[t]| + 1 && w.history[t] == v.history[t][..|w.history[t]|]
            && Queue(v) == Offer(Queue(w), v.history[t][|w.history[t]|], limits.queueSize)))
  }

  lemma QueueFollowsPublish(w: World, e: FeedLifecycle.HubEvent, limits: Limits)
    requires FeedTrue(w, limits) && PossibleHub(w, e) && Pumping(w) && e.Reported? && e.key == w.key
    ensures QueueFollows(w, AfterHub(w, e, limits), limits)
  {
  }

  lemma QueueFollowsSubscribed(w: World, e: FeedLifecycle.HubEvent, limits: Limits)
    requires PossibleHub(w, e) && Pumping(w) && w.hub.feeds[w.key].startedAt in w.history && e.Subscribed?
    requires w.session.value.id < w.hub.nextSubscriber
    ensures QueueFollows(w, AfterHub(w, e, limits), limits)
  {
  }

  lemma QueueFollowsGrace(w: World, e: FeedLifecycle.HubEvent, limits: Limits)
    requires PossibleHub(w, e) && Pumping(w) && w.hub.feeds[w.key].startedAt in w.history && e.GraceOver?
    ensures QueueFollows(w, AfterHub(w, e, limits), limits)
  {
  }

  lemma QueueFollowsOthers(w: World, e: FeedLifecycle.HubEvent, limits: Limits)
    requires PossibleHub(w, e) && Pumping(w) && w.hub.feeds[w.key].startedAt in w.history
    requires e.Unsubscribed? || e.Taken?
    ensures QueueFollows(w, AfterHub(w, e, limits), limits)
  {
  }

  lemma QueueFollowsElsewhere(w: World, e: FeedLifecycle.HubEvent, limits: Limits)
    requires PossibleHub(w, e) && Pumping(w) && w.hub.feeds[w.key].startedAt in w.history
    requires e.Reported? && e.key != w.key
    ensures QueueFollows(w, AfterHub(w, e, limits), limits)
  {
  }

  lemma AlignedFollows(w: World, v: World, end: Client, limits: Limits)
    requires Pumping(w) && w.hub.feeds[w.key].startedAt in w.history && Aligned(w, end) && QueueFollows(w, v, limits)
    ensures Aligned(v, end)
  {
  }

  lemma LiveQueueFollows(w: World, e: FeedLifecycle.HubEvent, limits: Limits)
    requires FeedTrue(w, limits) && PossibleHub(w, e) && Pumping(w) && w.session.value.id < w.hub.nextSubscriber
    ensures QueueFollows(w, AfterHub(w, e, limits), limits)
  {
    hide AfterHub, QueueFollows, FeedKeeps;
    if e.Reported? && e.key == w.key {
      QueueFollowsPublish(w, e, limits);
    } else if e.Reported? {
      QueueFollowsElsewhere(w, e, limits);
    } else if e.Subscribed? {
      QueueFollowsSubscribed(w, e, limits);
    } else if e.GraceOver? {
      QueueFollowsGrace(w, e, limits);
    } else {
      QueueFollowsOthers(w, e, limits);
    }
  }

  lemma HubKeepsInv(w: World, e: FeedLifecycle.HubEvent, limits: Limits, exact: bool)
    requires Inv(w, limits, exact) && PossibleHub(w, e) && limits.ringSize >= 1
    ensures Inv(AfterHub(w, e, limits), limits, exact)
  {
    var v := AfterHub(w, e, limits);
    HubKeepsFeedTrue(w, e, limits);
    HistoryGrows(w, e, limits);
    assert v.client == w.client && v.session == w.session && v.key == w.key;
    match w.session
    case None => FineGrows(w.client, w.history, v.history, limits.ringSize, exact);
    case Some(s) =>
      AllFineGrows(w.client, s.wire, w.history, v.history, limits.ringSize, exact);
      if s.pumping {
        LiveQueueFollows(w, e, limits);
        AlignedFollows(w, v, DeliverAll(w.client, s.wire), limits);
      } else {
        SubscriberIdsGrow(w.hub, e, limits);
      }
  }

  lemma SubscriberIdsGrow(h: Hub, e: FeedLifecycle.HubEvent, limits: Limits)
    requires FeedLifecycle.Possible(h, e)
    ensures FeedLifecycle.Next(h, e, limits).nextSubscriber >= h.nextSubscriber
  {
  }

  // ----- the server's steps -----

  lemma PumpKeepsInv(w: World, limits: Limits, exact: bool)
    requires Inv(w, limits, exact) && Possible(w, Pump)
    ensures Inv(Next(w, Pump, limits), limits, exact)
  {
    var v := AfterPump(w);
    var s := w.session.value;
    var f := w.hub.feeds[w.key];
    var log := w.history[f.startedAt];
    var g := v.hub.feeds[w.key];
    var end := DeliverAll(w.client, s.wire);
    ReadingKeeps(f, g, log, limits);
    assert FeedTrue(v, limits);
    if Queue(w)[0].Delivery? {
      var e := Queue(w)[0].event;
      assert e == log[end.Next()];
      EndIsFine(w.client, s.wire, w.history, limits.ringSize, exact);
      EventIsFine(end, e, w.history, limits.ringSize, exact);
      SendOne(w.client, s.wire, EventMessage(e), w.history, limits.ringSize, exact);
      assert Queue(v) == Queue(w)[1..];
      assert Waiting(Queue(v), log);
    }
  }

  lemma HeartbeatIsFine(c: Client, last: int, history: map<int, seq<Event>>, size: nat, exact: bool)
    requires Fine(c, history, size, exact) && c.feedStartedAt.Some? && (exact ==> LastTrue(last, c))
    ensures var d := Deliver(c, Heartbeat(last));
            Fine(d, history, size, exact) && d.Next() == c.Next() && d.feedStartedAt == c.feedStartedAt && (exact ==>
                  LastTrue(last, d))
  {
  }

  lemma BeatKeepsInv(w: World, limits: Limits, exact: bool)
    requires Inv(w, limits, exact) && Possible(w, Beat)
    ensures Inv(Next(w, Beat, limits), limits, exact)
  {
    hide Fine, FeedKeeps, Waiting;
    var s := w.session.value;
    var end := DeliverAll(w.client, s.wire);
    EndIsFine(w.client, s.wire, w.history, limits.ringSize, exact);
    HeartbeatIsFine(end, s.lastSequence, w.history, limits.ringSize, exact);
    SendOne(w.client, s.wire, Heartbeat(s.lastSequence), w.history, limits.ringSize, exact);
    hide Deliver, DeliverAll, AllFine;
  }

  // ----- connecting -----

  /** A subscription just handed out for the key of this world. */
  predicate JustSubscribed(w: World, s: Subscription) {
    && w.session.None? && w.key in w.hub.feeds
    && var f := w.hub.feeds[w.key];
    && s.id in f.subscribers && f.subscribers[s.id] == [] && s.id < w.hub.nextSubscriber
    && s.buffered == f.ring && s.feedStartedAt == f.startedAt
  }

  function Open(w: World, s: Subscription): World {
    w.(session := Some(OpenSession(w.client, s, Published(w))))
  }

  lemma SubscriptionIsNew(w: World, now: int, startup: seq<Report>, outcome: StartOutcome, limits: Limits)
    requires Possible(w, Connect(now, startup, outcome))
    ensures var w1 := AfterHub(w, FeedLifecycle.Subscribed(w.key, now, startup, outcome), limits);
            var s := Subscribe(w.hub, w.key, now, startup, outcome, limits).1;
            && w1.session.None? && w1.client == w.client && w1.key == w.key
            && (s.None? ==> Next(w, Connect(now, startup, outcome), limits) == w1)
            && (s.Some? ==> JustSubscribed(w1, s.value) && Next(w, Connect(now, startup, outcome), limits) == Open(w1, s.value))
  {
  }

  /** The client's next request is answered "replayed" exactly: its number is the one before the
      event it needs, or nothing is missing and its number is not behind. */
  predicate ExactReplay(w: World)
    requires w.key in w.hub.feeds && w.hub.feeds[w.key].startedAt in w.history && w.client.maxSequence.Some?
  {
    var n := w.client.Next();
    var m := w.client.maxSequence.value;
    var total := |w.history[w.hub.feeds[w.key].startedAt]|;
    m + 1 == n || (n == total && (m >= n || n == 0))
  }

  /** The first message of a connection, and the replay after it. */
  lemma WireIsFine(c: Client, t: int, mode: ResumeMode, firstNew: nat, events: seq<Event>, history: map<int,
        seq<Event>>, size: nat, exact: bool)
    requires Fine(c, history, size, exact) && t in history && Numbered(history[t])
    requires var d := Deliver(c, StreamState(t, mode, firstNew));
             && Fine(d, history, size, exact)
             && d.Next() + |events| == |history[t]| && events == history[t][d.Next()..]
    ensures var wire := [StreamState(t, mode, firstNew)] + Messages(events);
            && AllFine(c, wire, history, size, exact)
            && DeliverAll(c, wire).Next() == |history[t]| && DeliverAll(c, wire).feedStartedAt == Some(t)
  {
    var d := Deliver(c, StreamState(t, mode, firstNew));
    EventsAreFine(d, events, history, size, exact);
    var wire := [StreamState(t, mode, firstNew)] + Messages(events);
    assert wire[0] == StreamState(t, mode, firstNew) && wire[1..] == Messages(events);
  }

  /** After delivering nothing but events, the client still counts one for each. */
  lemma {:induction false} EventsCount(c: Client, events: seq<Event>)
    ensures DeliverAll(c, Messages(events)).Next() == c.Next() + |events|
    ensures DeliverAll(c, Messages(events)).maxSequence == c.maxSequence || events != []
    ensures DeliverAll(c, Messages(events)).policy == c.policy
    decreases |events|
  {
    hide Larger;
    if events != [] {
      assert Messages(events)[1..] == Messages(events[1..]);
      EventsCount(Deliver(c, Messages(events)[0]), events[1..]);
    }
  }

  /** What the session block sends when it does not answer "replayed": the newest part of the
      history, from where the new stretch starts. */
  lemma NoticeWire(c: Client, s: Subscription, log: seq<Event>, size: nat)
    requires Numbered(log) && s.buffered == RingOf(log, size) && size >= 1
    requires Resume(c, s).mode != Replayed && (c.feedStartedAt.None? ==> c.maxSequence.None?)
    ensures var d := Resume(c, s);
            var session := OpenSession(c, s, |log|);
            && |d.events| <= |log| && d.events == log[|log| - |d.events|..]
            && session.wire == [StreamState(s.feedStartedAt, d.mode, |log| - |d.events|)] + Messages(d.events)
            && (c.maxSequence.Some? && c.feedStartedAt == Some(s.feedStartedAt) ==>
                  && d.events == [] && c.maxSequence.value + 1 < RingStart(log, size)
                  && session.lastSequence == c.maxSequence.value)
            && (c.maxSequence.None? ==> session.lastSequence + 1 == |log|)
  {
  }

  lemma {:induction false} EventsArrive(c: Client, events: seq<Event>)
    ensures DeliverAll(c, Messages(events)).stretch == c.stretch + events
    decreases |events|
  {
    if events != [] {
      assert Messages(events)[1..] == Messages(events[1..]);
      EventsArrive(Deliver(c, Messages(events)[0]), events[1..]);
      assert [events[0]] + events[1..] == events;
    }
  }

  /** A client without a number, or told by no feed yet, is the one answered "fresh", and is sent all the
      feed still holds: the newest events of its history. One told to fill a gap is sent nothing. */
  lemma FreshClientGetsTheRing(w: World, s: Subscription, limits: Limits)
    requires FeedTrue(w, limits) && JustSubscribed(w, s)
    ensures var (c, end) := (w.client, DeliverAll(w.client, OpenSession(w.client, s, Published(w)).wire));
            && s.feedStartedAt in w.history
            && (Resume(c, s).mode == Fresh <==> c.maxSequence.None? || c.feedStartedAt.None?)
            && (Resume(c, s).mode == Fresh ==> end.stretch == RingOf(w.history[s.feedStartedAt], limits.ringSize))
            && (Resume(c, s).mode == GapFillRequired ==> end.stretch == [])
  {
    var session := OpenSession(w.client, s, Published(w));
    var events := Resume(w.client, s).events;
    assert session.wire[1..] == Messages(events);
    EventsArrive(Deliver(w.client, session.wire[0]), events);
    hide RingOf, Numbered, QueuesOk, Messages;
  }

  lemma NoticeLast(c: Client, s: Subscription, log: seq<Event>, size: nat)
    requires Numbered(log) && s.buffered == RingOf(log, size) && size >= 1
    requires Resume(c, s).mode != Replayed && (c.feedStartedAt.None? ==> c.maxSequence.None?)
    requires c.policy == Shipped && c.feedStartedAt.Some? ==> c.feedStartedAt.value == s.feedStartedAt
    requires DeliverAll(c, OpenSession(c, s, |log|).wire).Next() == |log|
    ensures var session := OpenSession(c, s, |log|); LastTrue(session.lastSequence, DeliverAll(c, session.wire))
  {
    NoticeWire(c, s, log, size);
    hide Resume, OpenSession, RingOf, RingStart, DecideResume;
    var session := OpenSession(c, s, |log|);
    EventsCount(Deliver(c, session.wire[0]), Resume(c, s).events);
    assert session.wire[1..] == Messages(Resume(c, s).events);
  }

  /** A session whose messages bring the client up to date keeps the invariant. */
  lemma SessionOpens(w: World, s: Subscription, limits: Limits, exact: bool)
    requires FeedTrue(w, limits) && JustSubscribed(w, s) && s.feedStartedAt in w.history
    requires var session := OpenSession(w.client, s, Published(w));
             var end := DeliverAll(w.client, session.wire);
             && AllFine(w.client, session.wire, w.history, limits.ringSize, exact)
             && end.Next() == |w.history[s.feedStartedAt]| && end.feedStartedAt == Some(s.feedStartedAt)
             && (exact ==> LastTrue(session.lastSequence, end))
    ensures Inv(Open(w, s), limits, exact)
  {
  }

  /** A connection that is not answered "replayed" starts a new stretch where the feed is. */
  lemma NoticeKeepsInv(w: World, s: Subscription, limits: Limits, exact: bool)
    requires Inv(w, limits, exact) && JustSubscribed(w, s) && limits.ringSize >= 1
    requires Resume(w.client, s).mode != Replayed
    requires exact && w.client.feedStartedAt.Some? && w.client.policy != Careful ==>
               w.client.feedStartedAt.value == s.feedStartedAt
    ensures Inv(Open(w, s), limits, exact)
  {
    var c := w.client;
    var t := s.feedStartedAt;
    var log := w.history[t];
    assert Published(w) == |log|;
    NoticeWire(c, s, log, limits.ringSize);
    hide DecideResume, FeedKeeps, Fine, Contiguous, Remembered, Resume, RingStart, Numbered, LastTrue;
    var d := Resume(c, s);
    var session := OpenSession(c, s, |log|);
    NoticeIsFine(c, t, d.mode, |log| - |d.events|, w.history, limits.ringSize, exact);
    WireIsFine(c, t, d.mode, |log| - |d.events|, d.events, w.history, limits.ringSize, exact);
    if exact {
      NoticeLast(c, s, log, limits.ringSize);
    }
    hide OpenSession, AllFine, DeliverAll, Deliver, FeedTrue, SessionTrue;
    SessionOpens(w, s, limits, exact);
  }

  lemma NoticeIsFine(c: Client, t: int, mode: ResumeMode, firstNew: nat, history: map<int, seq<Event>>, size: nat, exact: bool)
    requires Fine(c, history, size, exact) && t in history && mode != Replayed && firstNew <= |history[t]|
    requires exact && c.maxSequence.Some? && c.policy != Careful ==>
               c.maxSequence.value + 1 < firstNew && c.maxSequence.value + 1 < RingStart(history[t], size)
    ensures Fine(Deliver(c, StreamState(t, mode, firstNew)), history, size, exact)
  {
  }

  /** A "replayed" answer is given only to a client of this very incarnation. */
  lemma ReplayMeansSameFeed(w: World, s: Subscription, limits: Limits)
    requires Inv(w, limits, false) && JustSubscribed(w, s) && Resume(w.client, s).mode == Replayed
    ensures w.client.maxSequence.Some? && w.client.feedStartedAt == Some(s.feedStartedAt)
    ensures s.feedStartedAt in w.history && Numbered(w.history[s.feedStartedAt])
    ensures s.buffered == RingOf(w.history[s.feedStartedAt], limits.ringSize) && Published(w) == |w.history[s.feedStartedAt]|
    ensures w.client.Next() <= |w.history[s.feedStartedAt]| && Fine(w.client, w.history, limits.ringSize, false)
    ensures FeedTrue(w, limits)
  {
  }

  lemma ExactReplayOpens(w: World, s: Subscription, limits: Limits)
    requires Inv(w, limits, false) && JustSubscribed(w, s) && limits.ringSize >= 1
    requires Resume(w.client, s).mode == Replayed
    requires s.feedStartedAt in w.history && w.client.maxSequence.Some? && ExactReplay(w)
    ensures Inv(Open(w, s), limits, false)
  {
    ReplayMeansSameFeed(w, s, limits);
    var c := w.client;
    var log := w.history[s.feedStartedAt];
    var d := Resume(c, s);
    ResumeIsExact(log, limits.ringSize, c.Next(), c.maxSequence.value, s.feedStartedAt);
    var state := OpenSession(c, s, |log|).wire[0];
    assert Deliver(c, state) == c.(maxSequence := Deliver(c, state).maxSequence);
    hide FeedTrue, SessionTrue, Fine, RingOf, DecideResume;
    WireIsFine(c, s.feedStartedAt, Replayed, state.firstNew, d.events, w.history, limits.ringSize, false);
    SessionOpens(w, s, limits, false);
  }

  lemma InexactReplayBreaks(w: World, s: Subscription, limits: Limits)
    requires Inv(w, limits, false) && JustSubscribed(w, s) && limits.ringSize >= 1
    requires Resume(w.client, s).mode == Replayed
    requires s.feedStartedAt in w.history && w.client.maxSequence.Some? && !ExactReplay(w)
    ensures !NothingMissed(Drained(Open(w, s)))
  {
    ReplayMeansSameFeed(w, s, limits);
    var c := w.client;
    var log := w.history[s.feedStartedAt];
    var d := Resume(c, s);
    ResumeIsExact(log, limits.ringSize, c.Next(), c.maxSequence.value, s.feedStartedAt);
    ReplayIsNewest(log, limits.ringSize, ResumeRequest(c.maxSequence, c.feedStartedAt), s.feedStartedAt);
    var v := Open(w, s);
    var told := Deliver(c, v.session.value.wire[0]);
    assert told.Next() == c.Next();
    assert v.session.value.wire[1..] == Messages(d.events);
    EventsCount(told, d.events);
    assert DeliverAll(c, v.session.value.wire).Next() == c.Next() + |d.events|;
    assert Queue(v) == [];
  }

  /** A connection answered "replayed" brings the client up to date without gap or duplicate if, and
      only if, the client's number was exact. */
  lemma ReplayKeepsInvExactly(w: World, s: Subscription, limits: Limits)
    requires Inv(w, limits, false) && JustSubscribed(w, s) && limits.ringSize >= 1
    requires Resume(w.client, s).mode == Replayed
    ensures w.client.maxSequence.Some? && w.client.feedStartedAt == Some(s.feedStartedAt)
    ensures NothingMissed(Drained(Open(w, s))) <==> ExactReplay(w)
    ensures Inv(Open(w, s), limits, false) <==> ExactReplay(w)
  {
    ReplayMeansSameFeed(w, s, limits);
    hide Inv, Resume, NothingMissed, Drained;
    if ExactReplay(w) {
      ExactReplayOpens(w, s, limits);
      InvMissesNothing(Open(w, s), limits, false);
    } else {
      InexactReplayBreaks(w, s, limits);
      if Inv(Open(w, s), limits, false) {
        InvMissesNothing(Open(w, s), limits, false);
      }
    }
  }

  /** A client that remembers the right number is always replayed to exactly. */
  lemma ReplayKeepsExact(w: World, s: Subscription, limits: Limits)
    requires Inv(w, limits, true) && JustSubscribed(w, s) && limits.ringSize >= 1
    requires Resume(w.client, s).mode == Replayed
    ensures Inv(Open(w, s), limits, true)
  {
    var c := w.client;
    var log := w.history[s.feedStartedAt];
    var d := Resume(c, s);
    var v := Open(w, s);
    var n := c.Next();
    assert Inv(w, limits, false);
    ReplayKeepsInvExactly(w, s, limits);
    ResumeIsExact(log, limits.ringSize, n, c.maxSequence.value, s.feedStartedAt);
    assert ExactReplay(w);
    assert d.events == log[n..];
    assert Published(w) == |log|;
    var state := v.session.value.wire[0];
    assert Deliver(c, state) == c;
    WireIsFine(c, s.feedStartedAt, Replayed, state.firstNew, d.events, w.history, limits.ringSize, true);
    if d.events != [] {
      assert d.events[|d.events| - 1] == log[|log| - 1];
    }
  }

  // ----- runs -----

  function Answer(w: World, step: Step, limits: Limits): Option<Subscription>
    requires step.Connect?
  {
    Subscribe(w.hub, w.key, step.now, step.startup, step.outcome, limits).1
  }

  /** The client is not handed from one feed incarnation to another; a careful one may be. */
  predicate SameFeed(w: World, step: Step, limits: Limits) {
    step.Connect? && w.client.policy != Careful && Answer(w, step, limits).Some? && w.client.feedStartedAt.Some? ==>
      w.client.feedStartedAt.value == Answer(w, step, limits).value.feedStartedAt
  }

  /** If the connection is answered "replayed", the number the client sent was exact. */
  predicate HonestReplay(w: World, step: Step, limits: Limits)
    requires Possible(w, step)
  {
    step.Connect? && Answer(w, step, limits).Some? && Resume(w.client, Answer(w, step, limits).value).mode == Replayed ==>
      var w1 := AfterHub(w, FeedLifecycle.Subscribed(w.key, step.now, step.startup, step.outcome), limits);
      && w1.key in w1.hub.feeds && w1.hub.feeds[w1.key].startedAt in w1.history && w1.client.maxSequence.Some?
      && ExactReplay(w1)
  }

  lemma ConnectKeepsInv(w: World, step: Step, limits: Limits, exact: bool)
    requires Inv(w, limits, exact) && Possible(w, step) && step.Connect? && limits.ringSize >= 1
    requires if exact then SameFeed(w, step, limits) else HonestReplay(w, step, limits)
    ensures Inv(Next(w, step, limits), limits, exact)
  {
    var e := FeedLifecycle.Subscribed(w.key, step.now, step.startup, step.outcome);
    var w1 := AfterHub(w, e, limits);
    HubKeepsInv(w, e, limits, exact);
    SubscriptionIsNew(w, step.now, step.startup, step.outcome, limits);
    var answer := Answer(w, step, limits);
    hide AfterHub, Next, Inv, Resume;
    if answer.Some? {
      if Resume(w1.client, answer.value).mode != Replayed {
        NoticeKeepsInv(w1, answer.value, limits, exact);
      } else if exact {
        ReplayKeepsExact(w1, answer.value, limits);
      } else {
        ReplayKeepsInvExactly(w1, answer.value, limits);
      }
    }
  }

  lemma StepKeepsInv(w: World, step: Step, limits: Limits, exact: bool)
    requires Inv(w, limits, exact) && Possible(w, step) && limits.ringSize >= 1
    requires if exact then SameFeed(w, step, limits) else HonestReplay(w, step, limits)
    ensures Inv(Next(w, step, limits), limits, exact)
  {
    match step
    case HubStep(e) => HubKeepsInv(w, e, limits, exact);
    case Connect(_, _, _) => ConnectKeepsInv(w, step, limits, exact);
    case Pump => PumpKeepsInv(w, limits, exact);
    case Beat => BeatKeepsInv(w, limits, exact);
    case Receive => ReceiveKeepsInv(w, limits, exact);
    case Stop =>
    case Drop =>
  }

  lemma ReceiveKeepsInv(w: World, limits: Limits, exact: bool)
    requires Inv(w, limits, exact) && Possible(w, Receive)
    ensures Inv(Next(w, Receive, limits), limits, exact)
  {
  }

  /** A run in which no connection moves the client to another feed incarnation (`exact`), or in
      which every "replayed" answers a request whose number was exact (otherwise). */
  predicate GoodRun(w: World, steps: seq<Step>, limits: Limits, exact: bool)
    decreases |steps|
  {
    steps == [] ||
    (&& Possible(w, steps[0])
     && (if exact then SameFeed(w, steps[0], limits) else HonestReplay(w, steps[0], limits))
     && GoodRun(Next(w, steps[0], limits), steps[1..], limits, exact))
  }

  predicate PossibleRun(w: World, steps: seq<Step>, limits: Limits)
    decreases |steps|
  {
    steps == [] || (Possible(w, steps[0]) && PossibleRun(Next(w, steps[0], limits), steps[1..], limits))
  }

  function RunAll(w: World, steps: seq<Step>, limits: Limits): World
    requires PossibleRun(w, steps, limits)
    decreases |steps|
  {
    if steps == [] then w else RunAll(Next(w, steps[0], limits), steps[1..], limits)
  }

  function StartOf(key: StreamFeedKey, policy: Policy): World { World(key, EMPTY_HUB, map[], NewClient(policy), None) }

  /** Since it was last told to start over, the client has received a contiguous piece of what the
      feed published, each event once; if it was told so only once, that is all it ever received;
      and a client whose connection has drained has received everything. */
  predicate NothingMissed(w: World) {
    && Contiguous(w.client, w.history)
    && (Pumping(w) && w.session.value.wire == [] && Queue(w) == [] ==>
          && w.client.feedStartedAt == Some(w.hub.feeds[w.key].startedAt)
          && w.client.feedStartedAt.value in w.history
          && w.client.Next() == |w.history[w.client.feedStartedAt.value]|)
  }

  /** The same world once everything in flight has arrived. */
  function Drained(w: World): World {
    match w.session
    case None => w
    case Some(s) => w.(client := DeliverAll(w.client, s.wire), session := Some(s.(wire := [])))
  }

  lemma InvMissesNothing(w: World, limits: Limits, exact: bool)
    requires Inv(w, limits, exact)
    ensures NothingMissed(w) && NothingMissed(Drained(w))
  {
    hide Waiting, FeedTrue;
    if w.session.Some? {
      EndIsFine(w.client, w.session.value.wire, w.history, limits.ringSize, exact);
    }
  }

  /** At every moment of the run nothing is missed, as things are and once what is in flight arrives. */
  predicate AlwaysCaughtUp(w: World, steps: seq<Step>, limits: Limits)
    requires PossibleRun(w, steps, limits)
    decreases |steps|
  {
    && NothingMissed(w) && NothingMissed(Drained(w))
    && (steps == [] || AlwaysCaughtUp(Next(w, steps[0], limits), steps[1..], limits))
  }

  lemma {:induction false} GoodRunCatchesUp(w: World, steps: seq<Step>, limits: Limits, exact: bool)
    requires Inv(w, limits, exact) && limits.ringSize >= 1 && GoodRun(w, steps, limits, exact)
    ensures PossibleRun(w, steps, limits) && AlwaysCaughtUp(w, steps, limits) && NothingMissed(RunAll(w, steps, limits))
    decreases |steps|
  {
    hide Inv, Next, NothingMissed, Drained, SameFeed, HonestReplay;
    InvMissesNothing(w, limits, exact);
    if steps != [] {
      StepKeepsInv(w, steps[0], limits, exact);
      GoodRunCatchesUp(Next(w, steps[0], limits), steps[1..], limits, exact);
    }
  }

  /** On one feed incarnation, over any interleaving of reports, other subscribers, pumps,
      heartbeats, receipts, overflows, disconnects and reconnects, nothing is missed unnoticed. */
  lemma DeliveredExactlyOnce(key: StreamFeedKey, steps: seq<Step>, limits: Limits)
    requires limits.ringSize >= 1 && GoodRun(StartOf(key, Shipped), steps, limits, true)
    ensures PossibleRun(StartOf(key, Shipped), steps, limits)
    ensures AlwaysCaughtUp(StartOf(key, Shipped), steps, limits) && NothingMissed(RunAll(StartOf(key, Shipped), steps, limits))
  {
    GoodRunCatchesUp(StartOf(key, Shipped), steps, limits, true);
  }

  // ----- across feed incarnations -----

  lemma DishonestReplayIsSeen(w: World, step: Step, limits: Limits)
    requires Inv(w, limits, false) && Possible(w, step) && limits.ringSize >= 1 && !HonestReplay(w, step, limits)
    ensures !NothingMissed(Drained(Next(w, step, limits)))
  {
    var e := FeedLifecycle.Subscribed(w.key, step.now, step.startup, step.outcome);
    var w1 := AfterHub(w, e, limits);
    HubKeepsInv(w, e, limits, false);
    SubscriptionIsNew(w, step.now, step.startup, step.outcome, limits);
    var s := Answer(w, step, limits).value;
    ReplayMeansSameFeed(w1, s, limits);
    hide AfterHub, Next, Inv, Resume, NothingMissed, Drained, ExactReplay;
    ReplayKeepsInvExactly(w1, s, limits);
  }

  lemma {:induction false} CaughtUpExactly(w: World, steps: seq<Step>, limits: Limits)
    requires Inv(w, limits, false) && limits.ringSize >= 1 && PossibleRun(w, steps, limits)
    ensures AlwaysCaughtUp(w, steps, limits) <==> GoodRun(w, steps, limits, false)
    decreases |steps|
  {
    hide Inv, Next, NothingMissed, Drained, HonestReplay;
    InvMissesNothing(w, limits, false);
    if steps != [] {
      if HonestReplay(w, steps[0], limits) {
        StepKeepsInv(w, steps[0], limits, false);
        CaughtUpExactly(Next(w, steps[0], limits), steps[1..], limits);
      } else {
        DishonestReplayIsSeen(w, steps[0], limits);
      }
    }
  }

  /** Whatever number a client resumes with: a run misses nothing at any moment if, and only if,
      every request that was answered "replayed" carried an exact number. */
  lemma DeliveredIffReplaysAreExact(key: StreamFeedKey, policy: Policy, steps: seq<Step>, limits: Limits)
    requires limits.ringSize >= 1 && PossibleRun(StartOf(key, policy), steps, limits)
    ensures AlwaysCaughtUp(StartOf(key, policy), steps, limits) <==> GoodRun(StartOf(key, policy), steps, limits, false)
  {
    CaughtUpExactly(StartOf(key, policy), steps, limits);
  }

  lemma {:induction false} CarefulRunIsGood(w: World, steps: seq<Step>, limits: Limits)
    requires w.client.policy == Careful && PossibleRun(w, steps, limits)
    ensures GoodRun(w, steps, limits, true)
    decreases |steps|
  {
    hide Possible;
    if steps != [] {
      CarefulRunIsGood(Next(w, steps[0], limits), steps[1..], limits);
    }
  }

  /** A client that resumes only with the number of the last event it received since it was last told
      to start over, and otherwise asks afresh, misses nothing, over any number of incarnations. */
  lemma CarefulClientMissesNothing(key: StreamFeedKey, steps: seq<Step>, limits: Limits)
    requires limits.ringSize >= 1 && PossibleRun(StartOf(key, Careful), steps, limits)
    ensures AlwaysCaughtUp(StartOf(key, Careful), steps, limits) && NothingMissed(RunAll(StartOf(key, Careful), steps, limits))
  {
    CarefulRunIsGood(StartOf(key, Careful), steps, limits);
    GoodRunCatchesUp(StartOf(key, Careful), steps, limits, true);
  }
}
