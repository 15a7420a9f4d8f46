/** One browser client of one feed, over any number of connections: the hub, the server session that
    pumps a subscription onto a socket (app/market_data/infrastructure/stream_session.py), and what
    the client remembers (frontend/src/features/market-data/useMarketStream.ts). */
module StreamDelivery {
  import opened Wrappers
  import opened CandleStream
  import opened StreamProtocol
  import FeedLifecycle

  /** `firstNew` is not on the wire: it is the number of the first event this connection answers for. */
  datatype Message =
    | StreamState(startedAt: int, mode: ResumeMode, firstNew: nat)
    | EventMessage(event: Event)
    | Heartbeat(sequence: int)

  /** How a client comes by the number it resumes with. The shipped one keeps the greatest it ever
      saw; the documented one the greatest since the last stream state; the careful one that of the
      last event since it was last told to start over, ignoring heartbeats. */
  datatype Policy = Shipped | Documented | Careful

  /** What the client keeps across connections, and what it has seen: all events ever received, the
      number of connections that answered "fresh" or "gap fill required", and the events received
      since the last of those, which should continue from number `from`. */
  datatype Client = Client(
    policy: Policy, maxSequence: Option<int>, feedStartedAt: Option<int>,
    received: seq<Event>, notices: nat, stretch: seq<Event>, from: nat)
  {
    /** The number of the next event the client has to receive to miss nothing. */
    function Next(): nat { from + |stretch| }
  }

  function NewClient(policy: Policy): Client { Client(policy, None, None, [], 0, [], 0) }

  /** A connection: what is still in flight to the client, and the server's pump. */
  datatype Session = Session(id: nat, startedAt: int, wire: seq<Message>, lastSequence: int, pumping: bool)

  /** `history` is everything published for `key`, by the start time of the feed incarnation. */
  datatype World = World(
    key: StreamFeedKey, hub: Hub, history: map<int, seq<Event>>, client: Client, session: Option<Session>)

  datatype Step =
    | HubStep(event: FeedLifecycle.HubEvent)
    | Connect(now: int, startup: seq<Report>, outcome: StartOutcome)
    | Pump
    | Beat
    | Receive
    | Stop
    | Drop

  // ----- the client -----

  function Larger(remembered: Option<int>, sequence: int): Option<int> {
    if remembered.Some? && remembered.value > sequence then remembered else Some(sequence)
  }

  /** Whether a stream state makes the client forget its number. */
  predicate Forgets(policy: Policy, mode: ResumeMode) { policy == Documented || (policy == Careful && mode != Replayed) }

  function Deliver(c: Client, m: Message): Client {
    match m
    case StreamState(t, mode, firstNew) =>
      var told := c.(feedStartedAt := Some(t), maxSequence := if Forgets(c.policy, mode) then None else c.maxSequence);
      if mode == Replayed then told else told.(notices := c.notices + 1, stretch := [], from := firstNew)
    case EventMessage(e) =>
      c.(maxSequence := Larger(c.maxSequence, e.sequence), received := c.received + [e], stretch := c.stretch + [e])
    case Heartbeat(s) => if c.policy == Careful then c else c.(maxSequence := Larger(c.maxSequence, s))
  }

  function DeliverAll(c: Client, wire: seq<Message>): Client
    decreases |wire|
  {
    if wire == [] then c else DeliverAll(Deliver(c, wire[0]), wire[1..])
  }

  // ----- the server -----

  function Messages(events: seq<Event>): seq<Message> {
    seq(|events|, i requires 0 <= i < |events| => EventMessage(events[i]))
  }

  function Resume(c: Client, s: Subscription): ResumeDecision {
    DecideResume(ResumeRequest(c.maxSequence, c.feedStartedAt), s.feedStartedAt, s.buffered)
  }

  /** The session block before the pump: the stream state, then the events to replay. */
  function OpenSession(c: Client, s: Subscription, total: nat): Session {
    var d := Resume(c, s);
    var last := if d.events != [] then d.events[|d.events| - 1].sequence
                else if c.maxSequence.Some? && c.feedStartedAt.Some? then c.maxSequence.value else -1;
    var firstNew := if |d.events| <= total then total - |d.events| else 0;
    Session(s.id, s.feedStartedAt, [StreamState(s.feedStartedAt, d.mode, firstNew)] + Messages(d.events), last, true)
  }

  function Queue(w: World): seq<Item>
    requires w.session.Some? && w.key in w.hub.feeds && w.session.value.id in w.hub.feeds[w.key].subscribers
  {
    w.hub.feeds[w.key].subscribers[w.session.value.id]
  }

  // ----- steps -----

  function LogOf(reports: seq<Report>): (log: seq<Event>)
    ensures |log| == |reports|
  {
    if reports == [] then []
    else LogOf(reports[..|reports| - 1]) + [Event(|reports| - 1, PayloadOf(reports[|reports| - 1]))]
  }

  /** What a hub event adds to the history of the key. */
  function Recorded(w: World, e: FeedLifecycle.HubEvent): map<int, seq<Event>> {
    match e
    case Reported(key, report) =>
      if key == w.key && key in w.hub.feeds && w.hub.feeds[key].startedAt in w.history then
        var f := w.hub.feeds[key];
        w.history[f.startedAt := w.history[f.startedAt] + [Event(f.sequence + 1, PayloadOf(report))]]
      else w.history
    case Subscribed(key, now, startup, outcome) =>
      if key == w.key && key !in w.hub.feeds && outcome.Started? then w.history[now := LogOf(startup)] else w.history
    case _ => w.history
  }

  /** Only the server's own pump reads or closes the subscription it is pumping; a feed that is
      created again starts later than every earlier incarnation. */
  predicate PossibleHub(w: World, e: FeedLifecycle.HubEvent) {
    && FeedLifecycle.Possible(w.hub, e)
    && (w.session.Some? && w.session.value.pumping && (e.Taken? || e.Unsubscribed?) && e.key == w.key ==>
          e.id != w.session.value.id)
    && (e.Subscribed? && e.key == w.key && w.key !in w.hub.feeds ==> forall t :: t in w.history ==> t < e.now)
  }

  predicate Pumping(w: World) {
    w.session.Some? && w.session.value.pumping && w.key in w.hub.feeds && w.session.value.id in w.hub.feeds[w.key].subscribers
  }

  predicate Possible(w: World, step: Step) {
    match step
    case HubStep(e) => PossibleHub(w, e)
    case Connect(now, startup, outcome) => w.session.None?
          && PossibleHub(w, FeedLifecycle.Subscribed(w.key, now, startup, outcome))
    case Pump => Pumping(w) && Queue(w) != []
    case Beat => Pumping(w)
    case Receive => w.session.Some? && w.session.value.wire != []
    case Stop => w.session.Some?
    case Drop => w.session.Some?
  }

  function AfterHub(w: World, e: FeedLifecycle.HubEvent, limits: Limits): World
    requires PossibleHub(w, e)
  {
    w.(hub := FeedLifecycle.Next(w.hub, e, limits), history := Recorded(w, e))
  }

  /** How many events the registered feed of the key has published. */
  function Published(w: World): nat {
    if w.key in w.hub.feeds && w.hub.feeds[w.key].sequence >= 0 then w.hub.feeds[w.key].sequence + 1 else 0
  }

  function AfterPump(w: World): World
    requires Pumping(w) && Queue(w) != []
  {
    var s := w.session.value;
    var s' := match Queue(w)[0]
              case Delivery(e) => s.(wire := s.wire + [EventMessage(e)], lastSequence := e.sequence)
              case SubscriberOverflow => s.(pumping := false);
    w.(hub := Take(w.hub, w.key, s.id), session := Some(s'))
  }

  function Next(w: World, step: Step, limits: Limits): World
    requires Possible(w, step)
  {
    match step
    case HubStep(e) => AfterHub(w, e, limits)
    case Connect(now, startup, outcome) =>
      var subscribed := AfterHub(w, FeedLifecycle.Subscribed(w.key, now, startup, outcome), limits);
      (match Subscribe(w.hub, w.key, now, startup, outcome, limits).1
       case None => subscribed
       case Some(s) => subscribed.(session := Some(OpenSession(w.client, s, Published(subscribed)))))
    case Pump => AfterPump(w)
    case Beat => var s := w.session.value; w.(session := Some(s.(wire := s.wire + [Heartbeat(s.lastSequence)])))
    case Receive =>
      var s := w.session.value;
      w.(client := Deliver(w.client, s.wire[0]), session := Some(s.(wire := s.wire[1..])))
    case Stop => w.(session := Some(w.session.value.(pumping := false)))
    case Drop => w.(session := None)
  }

  // ----- the feed keeps its history -----

  /** The queue is the newest part of the history. */
  predicate Waiting(queue: seq<Item>, history: seq<Event>) {
    && |queue| <= |history|
    && forall i :: 0 <= i < |queue| ==> queue[i] == Delivery(history[|history| - |queue| + i])
  }

  /** Either contiguous up to the last event published, or headed by the overflow sentinel. */
  predicate QueueOk(queue: seq<Item>, history: seq<Event>) {
    Waiting(queue, history) || (queue != [] && queue[0] == SubscriberOverflow && Waiting(queue[1..], history))
  }

  predicate QueuesOk(f: Feed, history: seq<Event>) {
    forall id :: id in f.subscribers ==> QueueOk(f.subscribers[id], history)
  }

  predicate FeedKeeps(f: Feed, history: seq<Event>, limits: Limits) {
    f.sequence + 1 == |history| && Numbered(history) && f.ring == RingOf(history, limits.ringSize) && QueuesOk(f, history)
  }

  lemma OfferKeepsQueue(queue: seq<Item>, history: seq<Event>, event: Event, size: nat)
    requires QueueOk(queue, history)
    ensures QueueOk(Offer(queue, event, size), history + [event])
  {
  }

  /** Publishing keeps the numbering, the ring buffer and every queue true to the history. */
  lemma PublishKeeps(f: Feed, history: seq<Event>, report: Report, limits: Limits)
    requires FeedKeeps(f, history, limits) && limits.ringSize >= 1
    ensures FeedKeeps(PublishTo(f, report, limits), history + [Event(f.sequence + 1, PayloadOf(report))], limits)
  {
    var event := Event(f.sequence + 1, PayloadOf(report));
    var g := PublishTo(f, report, limits);
    RingPush(history, event, limits.ringSize);
    hide RingOf, PushRing, QueueOk, Offer;
    forall id | id in g.subscribers
      ensures QueueOk(g.subscribers[id], history + [event])
    {
      OfferKeepsQueue(f.subscribers[id], history, event, limits.queueSize);
    }
  }

  lemma {:induction false} StartupKeeps(now: int, reports: seq<Report>, limits: Limits)
    requires limits.ringSize >= 1
    ensures FeedKeeps(PublishAll(NewFeed(now), reports, limits), LogOf(reports), limits)
  {
    if reports != [] {
      StartupKeeps(now, reports[..|reports| - 1], limits);
      PublishKeeps(PublishAll(NewFeed(now), reports[..|reports| - 1], limits), LogOf(reports[..|reports| - 1]),
                   reports[|reports| - 1], limits);
    }
  }

  /** The registered feed of the key agrees with its history and is the newest incarnation. */
  predicate FeedTrue(w: World, limits: Limits) {
    && (forall t :: t in w.history ==> Numbered(w.history[t]))
    && (w.key in w.hub.feeds ==>
          var f := w.hub.feeds[w.key];
          && f.startedAt in w.history && FeedKeeps(f, w.history[f.startedAt], limits)
          && (forall t :: t in w.history ==> t <= f.startedAt)
          && (forall id :: id in f.subscribers ==> id < w.hub.nextSubscriber))
  }

  /** Nothing was published; queues only lost their heads, and new ones are empty. */
  predicate OnlyRead(f: Feed, g: Feed) {
    && g.startedAt == f.startedAt && g.sequence == f.sequence && g.ring == f.ring && g.state == f.state
    && forall id :: id in g.subscribers ==>
                      var q := g.subscribers[id];
                      q == [] || (id in f.subscribers && (q == f.subscribers[id] || (f.subscribers[id] != []
                            && q == f.subscribers[id][1..])))
  }

  lemma ReadingKeeps(f: Feed, g: Feed, history: seq<Event>, limits: Limits)
    requires FeedKeeps(f, history, limits) && OnlyRead(f, g)
    ensures FeedKeeps(g, history, limits)
  {
  }

  lemma EmptyQueueOk(history: seq<Event>)
    ensures QueueOk([], history)
  {
  }

  /** What is left of the feed of the key: gone, or only read. */
  predicate QuietFor(w: World, v: World) {
    && v.history == w.history && v.hub.nextSubscriber >= w.hub.nextSubscriber
    && (w.key in v.hub.feeds ==>
          && w.key in w.hub.feeds && OnlyRead(w.hub.feeds[w.key], v.hub.feeds[w.key])
          && forall id :: id in v.hub.feeds[w.key].subscribers ==> id < v.hub.nextSubscriber)
  }

  lemma QuietSubscription(w: World, e: FeedLifecycle.HubEvent, limits: Limits)
    requires FeedTrue(w, limits) && PossibleHub(w, e) && e.Subscribed? && !(e.key == w.key && w.key !in w.hub.feeds)
    ensures QuietFor(w, AfterHub(w, e, limits))
  {
    hide FeedKeeps, Numbered, PublishAll, LogOf;
    if e.key !in w.hub.feeds {
      FeedLifecycle.StartRegisters(w.hub, e.key, e.now, e.startup, e.outcome, limits);
    }
  }

  lemma QuietReport(w: World, e: FeedLifecycle.HubEvent, limits: Limits)
    requires FeedTrue(w, limits) && PossibleHub(w, e) && e.Reported? && e.key != w.key
    ensures QuietFor(w, AfterHub(w, e, limits))
  {
    hide FeedKeeps, Numbered, PublishTo;
  }

  lemma QuietGrace(w: World, e: FeedLifecycle.HubEvent, limits: Limits)
    requires FeedTrue(w, limits) && PossibleHub(w, e) && e.GraceOver?
    ensures QuietFor(w, AfterHub(w, e, limits))
  {
    hide FeedKeeps, Numbered;
  }

  lemma QuietReading(w: World, e: FeedLifecycle.HubEvent, limits: Limits)
    requires FeedTrue(w, limits) && PossibleHub(w, e) && e.Taken?
    ensures QuietFor(w, AfterHub(w, e, limits))
  {
    hide FeedKeeps, Numbered;
  }

  lemma QuietLeaving(w: World, e: FeedLifecycle.HubEvent, limits: Limits)
    requires FeedTrue(w, limits) && PossibleHub(w, e) && e.Unsubscribed?
    ensures QuietFor(w, AfterHub(w, e, limits))
  {
    hide FeedKeeps, Numbered;
  }

  lemma QuietHubStep(w: World, e: FeedLifecycle.HubEvent, limits: Limits)
    requires FeedTrue(w, limits) && PossibleHub(w, e)
    requires !(e.Reported? && e.key == w.key) && !(e.Subscribed? && e.key == w.key && w.key !in w.hub.feeds)
    ensures QuietFor(w, AfterHub(w, e, limits))
  {
    hide FeedTrue, QuietFor, AfterHub;
    match e
    case Reported(_, _) => QuietReport(w, e, limits);
    case Subscribed(_, _, _, _) => QuietSubscription(w, e, limits);
    case Unsubscribed(_, _) => QuietLeaving(w, e, limits);
    case GraceOver(_) => QuietGrace(w, e, limits);
    case Taken(_, _) => QuietReading(w, e, limits);
  }

  /** Subscribing to an unregistered key: either nothing remains, or a feed with this one subscriber. */
  lemma FreshFeed(w: World, e: FeedLifecycle.HubEvent, limits: Limits)
    requires PossibleHub(w, e) && e.Subscribed? && e.key == w.key && w.key !in w.hub.feeds
    ensures var v := AfterHub(w, e, limits);
            && v.key == w.key
            && (e.outcome.Raised? ==> v == w)
            && (e.outcome.Started? ==>
                  && w.key in v.hub.feeds && v.hub.feeds[w.key].startedAt == e.now
                  && v.hub.feeds[w.key].subscribers == map[w.hub.nextSubscriber := []]
                  && v.history == w.history[e.now := LogOf(e.startup)]
                  && v.hub.nextSubscriber == w.hub.nextSubscriber + 1
                  && v.hub.feeds[w.key].ring == PublishAll(NewFeed(e.now), e.startup, limits).ring
                  && v.hub.feeds[w.key].sequence == PublishAll(NewFeed(e.now), e.startup, limits).sequence
                  && v.hub.feeds[w.key].state == PublishAll(NewFeed(e.now), e.startup, limits).state)
  {
    FeedLifecycle.StartRegisters(w.hub, e.key, e.now, e.startup, e.outcome, limits);
    hide PublishAll, LogOf;
    if e.outcome.Started? {
      assert StartFeed(w.hub, w.key, e.now, e.startup, e.outcome, limits).feeds[w.key].subscribers == map[];
      assert AfterHub(w, e, limits).hub.feeds[w.key].subscribers == map[w.hub.nextSubscriber := []];
    }
  }

  lemma FirstSubscriberKeeps(f: Feed, g: Feed, id: nat, history: seq<Event>, limits: Limits)
    requires FeedKeeps(f, history, limits) && g.sequence == f.sequence && g.ring == f.ring && g.subscribers == map[id := []]
    ensures FeedKeeps(g, history, limits) && Numbered(history)
  {
    hide RingOf, QueueOk;
    EmptyQueueOk(history);
  }

  lemma FreshFeedTrue(w: World, e: FeedLifecycle.HubEvent, limits: Limits)
    requires FeedTrue(w, limits) && PossibleHub(w, e) && limits.ringSize >= 1
    requires e.Subscribed? && e.key == w.key && w.key !in w.hub.feeds
    ensures FeedTrue(AfterHub(w, e, limits), limits)
  {
    hide AfterHub, PublishAll, LogOf, Numbered, FeedKeeps;
    FreshFeed(w, e, limits);
    if e.outcome.Started? {
      StartupKeeps(e.now, e.startup, limits);
      FirstSubscriberKeeps(PublishAll(NewFeed(e.now), e.startup, limits), AfterHub(w, e, limits).hub.feeds[w.key],
                           w.hub.nextSubscriber, LogOf(e.startup), limits);
    }
  }

  lemma PublishedFeedTrue(w: World, e: FeedLifecycle.HubEvent, limits: Limits)
    requires FeedTrue(w, limits) && PossibleHub(w, e) && limits.ringSize >= 1
    requires e.Reported? && e.key == w.key && w.key in w.hub.feeds
    ensures FeedTrue(AfterHub(w, e, limits), limits)
  {
    var f := w.hub.feeds[w.key];
    PublishKeeps(f, w.history[f.startedAt], e.report, limits);
    FeedLifecycle.PublishKeepsLife(f, e.report, limits);
    hide PublishTo, RingOf, QueueOk, Numbered;
  }

  /** Over every hub event: what the feed holds is what its history says. */
  lemma HubKeepsFeedTrue(w: World, e: FeedLifecycle.HubEvent, limits: Limits)
    requires FeedTrue(w, limits) && PossibleHub(w, e) && limits.ringSize >= 1
    ensures FeedTrue(AfterHub(w, e, limits), limits)
  {
    if e.Subscribed? && e.key == w.key && w.key !in w.hub.feeds {
      FreshFeedTrue(w, e, limits);
    } else if e.Reported? && e.key == w.key && w.key in w.hub.feeds {
      PublishedFeedTrue(w, e, limits);
    } else if !(e.Reported? && e.key == w.key) {
      QuietHubStep(w, e, limits);
      var v := AfterHub(w, e, limits);
      hide AfterHub, FeedKeeps, OnlyRead;
      if w.key in v.hub.feeds {
        ReadingKeeps(w.hub.feeds[w.key], v.hub.feeds[w.key], w.history[w.hub.feeds[w.key].startedAt], limits);
        ReadStart(w.hub.feeds[w.key], v.hub.feeds[w.key]);
      }
    }
  }

  lemma ReadStart(f: Feed, g: Feed)
    requires OnlyRead(f, g)
    ensures g.startedAt == f.startedAt
  {
  }
}
