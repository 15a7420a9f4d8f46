/** In-memory publish/subscribe for live candle feeds
    (app/market_data/infrastructure/candle_stream.py). Every hub method runs to completion on one
    event loop, so each is one atomic step. */
module CandleStream {
  import opened Wrappers

  datatype StreamFeedKey = StreamFeedKey(exchange: string, symbol: string, timeframe: string)
  datatype FeedState = Starting | Connected | Delayed | Disconnected
  datatype OHLCV = OHLCV(open: real, high: real, low: real, close: real, volume: real)

  datatype Payload =
    | ProvisionalUpdate(openTime: int, ohlcv: OHLCV)
    | CandleFinalized(openTime: int, ohlcv: OHLCV)
    | GapNotice(reasonCode: string)

  datatype Event = Event(sequence: int, payload: Payload)

  /** What waits in a subscriber's queue. */
  datatype Item = Delivery(event: Event) | SubscriberOverflow

  /** What an exchange adapter reports through its sink. */
  datatype Report =
    | Candle(openTime: int, ohlcv: OHLCV, isFinal: bool)
    | Failure(code: string, state: FeedState)

  datatype Feed = Feed(
    startedAt: int, worker: Option<nat>, state: FeedState, sequence: int, ring: seq<Event>,
    subscribers: map<nat, seq<Item>>, teardown: Option<nat>)

  /** How a starter ended: with a worker handle, or by raising. */
  datatype StartOutcome = Started(worker: nat) | Raised

  datatype Limits = Limits(ringSize: nat, queueSize: nat)

  /** The hub and what it owns: pending teardown tasks (by the key they were created for), the
      workers now running, and the workers it has stopped, in order. */
  datatype Hub = Hub(
    feeds: map<StreamFeedKey, Feed>, nextSubscriber: nat, tasks: map<nat, StreamFeedKey>, nextTask: nat,
    running: set<nat>, stopped: seq<nat>)

  datatype Subscription = Subscription(id: nat, buffered: seq<Event>, feedStartedAt: int)

  const EMPTY_HUB: Hub := Hub(map[], 1, map[], 0, {}, [])

  // ----- publishing -----

  function PushRing(ring: seq<Event>, event: Event, size: nat): seq<Event> {
    if size == 0 then []
    else if |ring| < size then ring + [event]
    else ring[|ring| + 1 - size..] + [event]
  }

  /** A full queue is emptied and holds only the overflow sentinel. */
  function Offer(queue: seq<Item>, event: Event, size: nat): seq<Item> {
    if |queue| < size then queue + [Delivery(event)] else [SubscriberOverflow]
  }

  function AppendAndFanOut(feed: Feed, event: Event, limits: Limits): Feed {
    feed.(ring := PushRing(feed.ring, event, limits.ringSize),
          subscribers := map id | id in feed.subscribers :: Offer(feed.subscribers[id], event, limits.queueSize))
  }

  function PayloadOf(report: Report): Payload {
    match report
    case Candle(t, v, isFinal) => if isFinal then CandleFinalized(t, v) else ProvisionalUpdate(t, v)
    case Failure(code, _) => GapNotice(code)
  }

  function StateOf(report: Report): FeedState {
    if report.Candle? then Connected else report.state
  }

  function PublishTo(feed: Feed, report: Report, limits: Limits): Feed {
    AppendAndFanOut(feed.(sequence := feed.sequence + 1, state := StateOf(report)),
                    Event(feed.sequence + 1, PayloadOf(report)), limits)
  }

  function Publish(h: Hub, key: StreamFeedKey, report: Report, limits: Limits): Hub {
    if key in h.feeds then h.(feeds := h.feeds[key := PublishTo(h.feeds[key], report, limits)]) else h
  }

  // ----- lifecycle -----

  function NewFeed(now: int): Feed { Feed(now, None, Starting, -1, [], map[], None) }

  function PublishAll(feed: Feed, reports: seq<Report>, limits: Limits): Feed {
    if reports == [] then feed
    else PublishTo(PublishAll(feed, reports[..|reports| - 1], limits), reports[|reports| - 1], limits)
  }

  /** Registers a feed, lets its starter run (it may already report while starting), and removes
      the feed again if the starter raised. */
  function StartFeed(h: Hub, key: StreamFeedKey, now: int, startup: seq<Report>, outcome: StartOutcome, limits: Limits): Hub {
    var feed := PublishAll(NewFeed(now), startup, limits);
    match outcome
    case Started(w) => h.(feeds := h.feeds[key := feed.(worker := Some(w))], running := h.running + {w})
    case Raised => h.(feeds := h.feeds - {key})
  }

  /** Attaches a subscriber to a registered feed, calling off its teardown. */
  function Attach(h: Hub, key: StreamFeedKey): Hub
    requires key in h.feeds
  {
    var feed := h.feeds[key];
    var tasks := if feed.teardown.Some? then h.tasks - {feed.teardown.value} else h.tasks;
    var attached := feed.(teardown := None, subscribers := feed.subscribers[h.nextSubscriber := []]);
    h.(feeds := h.feeds[key := attached], tasks := tasks, nextSubscriber := h.nextSubscriber + 1)
  }

  function Subscribe(h: Hub, key: StreamFeedKey, now: int, startup: seq<Report>, outcome: StartOutcome, limits: Limits)
    : (Hub, Option<Subscription>)
  {
    var started := if key in h.feeds then h else StartFeed(h, key, now, startup, outcome, limits);
    if key !in started.feeds then (started, None)
    else
      var feed := started.feeds[key];
      (Attach(started, key), Some(Subscription(started.nextSubscriber, feed.ring, feed.startedAt)))
  }

  function Unsubscribe(h: Hub, key: StreamFeedKey, id: nat): Hub {
    if key !in h.feeds then h
    else
      var feed := h.feeds[key].(subscribers := h.feeds[key].subscribers - {id});
      if |feed.subscribers| == 0 && feed.teardown.None? then
        h.(feeds := h.feeds[key := feed.(teardown := Some(h.nextTask))], tasks := h.tasks[h.nextTask := key],
           nextTask := h.nextTask + 1)
      else h.(feeds := h.feeds[key := feed])
  }

  /** A teardown task wakes after its grace period. */
  function TeardownAfterGrace(h: Hub, task: nat): Hub
    requires task in h.tasks
  {
    var key := h.tasks[task];
    var rest := h.(tasks := h.tasks - {task});
    if key !in h.feeds || |h.feeds[key].subscribers| > 0 then rest
    else
      var worker := h.feeds[key].worker;
      var gone := rest.(feeds := h.feeds - {key});
      if worker.Some? then gone.(running := h.running - {worker.value}, stopped := h.stopped + [worker.value]) else gone
  }

  /** A session takes the next item from its queue. */
  function Take(h: Hub, key: StreamFeedKey, id: nat): Hub
    requires key in h.feeds && id in h.feeds[key].subscribers && h.feeds[key].subscribers[id] != []
  {
    var feed := h.feeds[key];
    h.(feeds := h.feeds[key := feed.(subscribers := feed.subscribers[id := feed.subscribers[id][1..]])])
  }

  // ----- the hub, as it runs -----

  class FeedHub {
    const limits: Limits
    var feeds: map<StreamFeedKey, Feed>
    var nextSubscriber: nat
    var tasks: map<nat, StreamFeedKey>
    var nextTask: nat
    var running: set<nat>
    var stopped: seq<nat>

    ghost function Now(): Hub
      reads this
    {
      Hub(feeds, nextSubscriber, tasks, nextTask, running, stopped)
    }

    constructor (ringSize: nat, queueSize: nat)
      requires ringSize >= 1 && queueSize >= 1
      ensures Now() == EMPTY_HUB && limits == Limits(ringSize, queueSize)
    {
      limits := Limits(ringSize, queueSize);
      feeds, nextSubscriber, tasks, nextTask, running, stopped := map[], 1, map[], 0, {}, [];
    }

    /** Empties a queue item by item and leaves the sentinel in it. */
    method ForceDisconnect(queue: seq<Item>) returns (emptied: seq<Item>)
      ensures emptied == [SubscriberOverflow]
    {
      emptied := queue;
      while emptied != []
        decreases |emptied|
      {
        emptied := emptied[1..];
      }
      emptied := emptied + [SubscriberOverflow];
    }

    /** Appends an event to the ring buffer and offers it to every subscriber. */
    method FanOut(feed: Feed, event: Event) returns (r: Feed)
      ensures r == AppendAndFanOut(feed, event, limits)
    {
      r := feed.(ring := PushRing(feed.ring, event, limits.ringSize));
      var todo := feed.subscribers.Keys;
      while todo != {}
        invariant todo <= feed.subscribers.Keys
        invariant r.subscribers.Keys == feed.subscribers.Keys
        invariant r == feed.(ring := PushRing(feed.ring, event, limits.ringSize), subscribers := r.subscribers)
        invariant forall id :: id in feed.subscribers ==>
                                 r.subscribers[id] == if id in todo then feed.subscribers[id]
                                                      else Offer(feed.subscribers[id], event, limits.queueSize)
        decreases todo
      {
        var id :| id in todo;
        var queue := r.subscribers[id];
        if |queue| < limits.queueSize {
          queue := queue + [Delivery(event)];
        } else {
          queue := ForceDisconnect(queue);
        }
        r := r.(subscribers := r.subscribers[id := queue]);
        todo := todo - {id};
      }
      assert r.subscribers == AppendAndFanOut(feed, event, limits).subscribers;
    }

    /** A candle update or a failure report from the adapter of `key`; dropped if the feed is gone. */
    method Accept(key: StreamFeedKey, report: Report)
      modifies this
      ensures Now() == Publish(old(Now()), key, report, limits)
    {
      if key !in feeds {
        return;
      }
      var feed := feeds[key];
      feed := feed.(sequence := feed.sequence + 1, state := StateOf(report));
      feed := FanOut(feed, Event(feed.sequence, PayloadOf(report)));
      feeds := feeds[key := feed];
    }

    /** Registers a feed before its starter runs, so nothing reported while starting is lost. */
    method Start(key: StreamFeedKey, now: int, startup: seq<Report>, outcome: StartOutcome)
      requires key !in feeds
      modifies this
      ensures Now() == StartFeed(old(Now()), key, now, startup, outcome, limits)
    {
      ghost var before := feeds;
      feeds := feeds[key := NewFeed(now)];
      var k := 0;
      while k < |startup|
        invariant 0 <= k <= |startup|
        invariant Now() == old(Now()).(feeds := before[key := PublishAll(NewFeed(now), startup[..k], limits)])
      {
        assert startup[..k + 1][..k] == startup[..k];
        Accept(key, startup[k]);
        k := k + 1;
      }
      assert startup[..k] == startup;
      match outcome
      case Started(w) =>
        feeds := feeds[key := feeds[key].(worker := Some(w))];
        running := running + {w};
      case Raised =>
        feeds := feeds - {key};
    }

    /** Attaches a subscriber, starting the feed or calling off its teardown. */
    method AddSubscriber(key: StreamFeedKey, now: int, startup: seq<Report>, outcome: StartOutcome)
      returns (subscription: Option<Subscription>)
      modifies this
      ensures (Now(), subscription) == Subscribe(old(Now()), key, now, startup, outcome, limits)
    {
      hide PublishAll;
      if key !in feeds {
        Start(key, now, startup, outcome);
        if outcome.Raised? {
          return None;
        }
      }
      label started:
      var feed := feeds[key];
      if feed.teardown.Some? {
        tasks := tasks - {feed.teardown.value};
      }
      var id := nextSubscriber;
      nextSubscriber := nextSubscriber + 1;
      feeds := feeds[key := feed.(teardown := None, subscribers := feed.subscribers[id := []])];
      assert Now() == Attach(old@started(Now()), key);
      subscription := Some(Subscription(id, feed.ring, feed.startedAt));
    }

    /** Removes a subscriber; the last one to leave schedules the teardown. */
    method RemoveSubscriber(key: StreamFeedKey, id: nat)
      modifies this
      ensures Now() == Unsubscribe(old(Now()), key, id)
    {
      if key !in feeds {
        return;
      }
      var feed := feeds[key].(subscribers := feeds[key].subscribers - {id});
      if |feed.subscribers| == 0 && feed.teardown.None? {
        feed := feed.(teardown := Some(nextTask));
        tasks := tasks[nextTask := key];
        nextTask := nextTask + 1;
      }
      feeds := feeds[key := feed];
    }

    /** The grace period of a teardown task is over. */
    method Teardown(task: nat)
      requires task in tasks
      modifies this
      ensures Now() == TeardownAfterGrace(old(Now()), task)
    {
      var key := tasks[task];
      tasks := tasks - {task};
      if key !in feeds || |feeds[key].subscribers| > 0 {
        return;
      }
      var worker := feeds[key].worker;
      feeds := feeds - {key};
      if worker.Some? {
        running := running - {worker.value};
        stopped := stopped + [worker.value];
      }
    }
  }
}
