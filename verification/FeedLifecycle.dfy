/** The life of feeds and their workers over any sequence of hub events. */
module FeedLifecycle {
  import opened Wrappers
  import opened CandleStream

  datatype HubEvent =
    | Reported(key: StreamFeedKey, report: Report)
    | Subscribed(key: StreamFeedKey, now: int, startup: seq<Report>, outcome: StartOutcome)
    | Unsubscribed(key: StreamFeedKey, id: nat)
    | GraceOver(task: nat)
    | Taken(key: StreamFeedKey, id: nat)

  /** A starter returns a new worker handle; only pending tasks wake; only non-empty queues are read. */
  predicate Possible(h: Hub, e: HubEvent) {
    match e
    case Subscribed(_, _, _, outcome) => outcome.Started? ==> outcome.worker !in h.running && outcome.worker !in h.stopped
    case GraceOver(task) => task in h.tasks
    case Taken(key, id) => key in h.feeds && id in h.feeds[key].subscribers && h.feeds[key].subscribers[id] != []
    case _ => true
  }

  function Next(h: Hub, e: HubEvent, limits: Limits): Hub
    requires Possible(h, e)
  {
    match e
    case Reported(key, report) => Publish(h, key, report, limits)
    case Subscribed(key, now, startup, outcome) => Subscribe(h, key, now, startup, outcome, limits).0
    case Unsubscribed(key, id) => Unsubscribe(h, key, id)
    case GraceOver(task) => TeardownAfterGrace(h, task)
    case Taken(key, id) => Take(h, key, id)
  }

  /** A registered feed has a running worker of its own, and a pending teardown exactly while nobody
      is subscribed. */
  predicate FeedAlive(h: Hub, key: StreamFeedKey)
    requires key in h.feeds
  {
    var f := h.feeds[key];
    && f.worker.Some? && f.worker.value in h.running
    && (|f.subscribers| == 0 <==> f.teardown.Some?)
    && (f.teardown.Some? ==> f.teardown.value in h.tasks && h.tasks[f.teardown.value] == key)
    && (forall id :: id in f.subscribers ==> id < h.nextSubscriber)
  }

  predicate TaskPending(h: Hub, task: nat)
    requires task in h.tasks
  {
    task < h.nextTask && h.tasks[task] in h.feeds && h.feeds[h.tasks[task]].teardown == Some(task)
  }

  predicate OwnWorker(h: Hub, a: StreamFeedKey, b: StreamFeedKey)
    requires a in h.feeds && b in h.feeds
  {
    a != b ==> h.feeds[a].worker != h.feeds[b].worker
  }

  predicate WorkerHasFeed(h: Hub, w: nat) {
    exists key :: key in h.feeds && h.feeds[key].worker == Some(w)
  }

  /** Workers and feeds correspond one to one, teardown tasks and empty feeds correspond one to one,
      and no worker was stopped twice or is still running after being stopped. */
  predicate Orderly(h: Hub) {
    FeedsAlive(h) && TasksPending(h) && WorkersMatch(h)
  }

  predicate FeedsAlive(h: Hub) {
    forall key :: key in h.feeds ==> FeedAlive(h, key)
  }

  predicate TasksPending(h: Hub) {
    forall t :: t in h.tasks ==> TaskPending(h, t)
  }

  predicate WorkersMatch(h: Hub) {
    && (forall a, b :: a in h.feeds && b in h.feeds ==> OwnWorker(h, a, b))
    && (forall w :: w in h.running ==> WorkerHasFeed(h, w))
    && (forall i, j :: 0 <= i < j < |h.stopped| ==> h.stopped[i] != h.stopped[j])
    && (forall i :: 0 <= i < |h.stopped| ==> h.stopped[i] !in h.running)
  }

  /** Whatever leaves every feed's worker alone keeps workers and feeds matched. */
  lemma SameWorkers(h: Hub, g: Hub)
    requires WorkersMatch(h) && g.running == h.running && g.stopped == h.stopped && g.feeds.Keys == h.feeds.Keys
    requires forall k :: k in h.feeds ==> g.feeds[k].worker == h.feeds[k].worker
    ensures WorkersMatch(g)
  {
  }

  // ----- publishing touches only sequence, state, ring and queues -----

  predicate SameLife(f: Feed, g: Feed) {
    g.startedAt == f.startedAt && g.worker == f.worker && g.teardown == f.teardown && g.subscribers.Keys == f.subscribers.Keys
  }

  lemma SameSize(f: Feed, g: Feed)
    requires g.subscribers.Keys == f.subscribers.Keys
    ensures |g.subscribers| == |f.subscribers|
  {
  }

  lemma PublishKeepsLife(f: Feed, report: Report, limits: Limits)
    ensures SameLife(f, PublishTo(f, report, limits))
  {
  }

  lemma {:induction false} StartupKeepsLife(f: Feed, reports: seq<Report>, limits: Limits)
    ensures SameLife(f, PublishAll(f, reports, limits))
  {
    if reports != [] {
      StartupKeepsLife(f, reports[..|reports| - 1], limits);
      PublishKeepsLife(PublishAll(f, reports[..|reports| - 1], limits), reports[|reports| - 1], limits);
    }
  }

  lemma ReplaceFeed(h: Hub, key: StreamFeedKey, f: Feed)
    requires Orderly(h) && key in h.feeds && SameLife(h.feeds[key], f)
    ensures Orderly(h.(feeds := h.feeds[key := f]))
  {
    hide WorkersMatch;
    var g := h.(feeds := h.feeds[key := f]);
    SameSize(h.feeds[key], f);
    SameWorkers(h, g);
    forall k | k in g.feeds
      ensures FeedAlive(g, k)
    {
      assert FeedAlive(h, k);
    }
    forall t | t in g.tasks
      ensures TaskPending(g, t)
    {
      assert TaskPending(h, t);
    }
  }

  // ----- subscribing -----

  /** The hub right after a feed is registered, before its first subscriber is attached. */
  predicate JustStarted(h: Hub, key: StreamFeedKey, h': Hub) {
    && key !in h.feeds && key in h'.feeds && h'.feeds == h.feeds[key := h'.feeds[key]]
    && h'.feeds[key].worker.Some? && h'.feeds[key].teardown.None? && h'.feeds[key].subscribers == map[]
    && var w := h'.feeds[key].worker.value;
    && w !in h.running && w !in h.stopped && h'.running == h.running + {w}
    && h'.stopped == h.stopped && h'.tasks == h.tasks && h'.nextTask == h.nextTask && h'.nextSubscriber == h.nextSubscriber
  }

  lemma StartRegisters(h: Hub, key: StreamFeedKey, now: int, startup: seq<Report>, outcome: StartOutcome, limits: Limits)
    requires key !in h.feeds && (outcome.Started? ==> outcome.worker !in h.running && outcome.worker !in h.stopped)
    ensures var h' := StartFeed(h, key, now, startup, outcome, limits);
            && (outcome.Started? ==> JustStarted(h, key, h') && h'.feeds[key].startedAt == now)
            && (outcome.Raised? ==> h' == h)
  {
    StartupKeepsLife(NewFeed(now), startup, limits);
    hide PublishAll;
    var f := PublishAll(NewFeed(now), startup, limits);
    assert f.subscribers.Keys == {};
    assert f.subscribers == map[];
    if outcome.Raised? {
      assert h.feeds - {key} == h.feeds;
    }
  }

  lemma AttachAfterStart(h: Hub, key: StreamFeedKey, h1: Hub)
    requires Orderly(h) && JustStarted(h, key, h1)
    ensures Orderly(Attach(h1, key))
  {
    var g := Attach(h1, key);
    var w := h1.feeds[key].worker.value;
    assert g.feeds[key].subscribers == map[h1.nextSubscriber := []];
    forall k | k in g.feeds
      ensures FeedAlive(g, k)
    {
      if k != key {
        assert FeedAlive(h, k);
      }
    }
    forall t | t in g.tasks
      ensures TaskPending(g, t)
    {
      assert TaskPending(h, t);
    }
    forall a, b | a in g.feeds && b in g.feeds
      ensures OwnWorker(g, a, b)
    {
      if a != key && b != key {
        assert OwnWorker(h, a, b);
      } else if a != key {
        assert FeedAlive(h, a);
      } else if b != key {
        assert FeedAlive(h, b);
      }
    }
    forall v | v in g.running
      ensures WorkerHasFeed(g, v)
    {
      if v == w {
        assert key in g.feeds && g.feeds[key].worker == Some(v);
      } else {
        assert WorkerHasFeed(h, v);
        var k :| k in h.feeds && h.feeds[k].worker == Some(v);
        assert k in g.feeds && g.feeds[k].worker == Some(v);
      }
    }
  }

  lemma AttachKeepsFeeds(h: Hub, key: StreamFeedKey)
    requires FeedsAlive(h) && key in h.feeds
    ensures FeedsAlive(Attach(h, key))
  {
  }

  lemma AttachKeepsTasks(h: Hub, key: StreamFeedKey)
    requires TasksPending(h) && key in h.feeds
    ensures TasksPending(Attach(h, key))
  {
  }

  lemma AttachKeepsOrderly(h: Hub, key: StreamFeedKey)
    requires Orderly(h) && key in h.feeds
    ensures Orderly(Attach(h, key))
  {
    hide FeedsAlive, TasksPending, WorkersMatch;
    AttachKeepsFeeds(h, key);
    AttachKeepsTasks(h, key);
    SameWorkers(h, Attach(h, key));
  }

  // ----- leaving -----

  lemma UnsubscribeKeepsFeed(h: Hub, key: StreamFeedKey, id: nat, k: StreamFeedKey)
    requires key in h.feeds && k in h.feeds && FeedAlive(h, k) && k in Unsubscribe(h, key, id).feeds
    requires h.feeds[k].teardown.Some? ==> h.feeds[k].teardown.value in h.tasks && TaskPending(h, h.feeds[k].teardown.value)
    ensures FeedAlive(Unsubscribe(h, key, id), k)
  {
    NoSubscribersStays(h.feeds[key], id);
  }

  lemma UnsubscribeKeepsFeeds(h: Hub, key: StreamFeedKey, id: nat)
    requires FeedsAlive(h) && TasksPending(h) && key in h.feeds
    ensures FeedsAlive(Unsubscribe(h, key, id))
  {
    var g := Unsubscribe(h, key, id);
    NoSubscribersStays(h.feeds[key], id);
    forall k | k in g.feeds
      ensures FeedAlive(g, k)
    {
      UnsubscribeKeepsFeed(h, key, id, k);
    }
  }

  lemma UnsubscribeKeepsTasks(h: Hub, key: StreamFeedKey, id: nat)
    requires TasksPending(h) && key in h.feeds
    ensures TasksPending(Unsubscribe(h, key, id))
  {
  }

  lemma UnsubscribeKeepsOrderly(h: Hub, key: StreamFeedKey, id: nat)
    requires Orderly(h) && key in h.feeds
    ensures Orderly(Unsubscribe(h, key, id))
  {
    hide FeedsAlive, TasksPending, WorkersMatch;
    UnsubscribeKeepsFeeds(h, key, id);
    UnsubscribeKeepsTasks(h, key, id);
    SameWorkers(h, Unsubscribe(h, key, id));
  }

  lemma NoSubscribersStays(f: Feed, id: nat)
    ensures |f.subscribers| == 0 ==> |f.subscribers - {id}| == 0
  {
  }

  /** The guard of a teardown never stops it: a task that wakes always finds its feed registered and
      without subscribers, removes it, and stops its worker, which was running. */
  lemma TeardownAlwaysFinishes(h: Hub, task: nat)
    requires Orderly(h) && task in h.tasks
    ensures var g := TeardownAfterGrace(h, task);
            var key := h.tasks[task];
            && key in h.feeds && h.feeds[key].worker.Some? && h.feeds[key].worker.value in h.running
            && g.feeds == h.feeds - {key} && g.tasks == h.tasks - {task}
            && g.running == h.running - {h.feeds[key].worker.value}
            && g.stopped == h.stopped + [h.feeds[key].worker.value]
            && g.nextTask == h.nextTask && g.nextSubscriber == h.nextSubscriber
  {
  }

  lemma TeardownKeepsMatch(h: Hub, task: nat)
    requires Orderly(h) && task in h.tasks
    ensures WorkersMatch(TeardownAfterGrace(h, task))
  {
    TeardownAlwaysFinishes(h, task);
    hide TeardownAfterGrace, FeedAlive, TaskPending;
    var g := TeardownAfterGrace(h, task);
    var key := h.tasks[task];
    forall a, b | a in g.feeds && b in g.feeds
      ensures OwnWorker(g, a, b)
    {
      assert OwnWorker(h, a, b);
    }
    forall v | v in g.running
      ensures WorkerHasFeed(g, v)
    {
      assert WorkerHasFeed(h, v);
      var k :| k in h.feeds && h.feeds[k].worker == Some(v);
      assert k in g.feeds && g.feeds[k].worker == Some(v);
    }
  }

  lemma TeardownKeepsFeeds(h: Hub, task: nat)
    requires Orderly(h) && task in h.tasks
    ensures FeedsAlive(TeardownAfterGrace(h, task))
  {
    var g := TeardownAfterGrace(h, task);
    var key := h.tasks[task];
    TeardownAlwaysFinishes(h, task);
    hide TeardownAfterGrace, TasksPending;
    forall k | k in g.feeds
      ensures FeedAlive(g, k)
    {
      assert FeedAlive(h, k) && FeedAlive(h, key) && OwnWorker(h, k, key);
    }
  }

  lemma TeardownKeepsTasks(h: Hub, task: nat)
    requires Orderly(h) && task in h.tasks
    ensures TasksPending(TeardownAfterGrace(h, task))
  {
  }

  lemma TeardownKeepsOrderly(h: Hub, task: nat)
    requires Orderly(h) && task in h.tasks
    ensures Orderly(TeardownAfterGrace(h, task))
  {
    TeardownKeepsMatch(h, task);
    TeardownKeepsFeeds(h, task);
    TeardownKeepsTasks(h, task);
  }

  lemma StepKeepsOrderly(h: Hub, e: HubEvent, limits: Limits)
    requires Orderly(h) && Possible(h, e)
    ensures Orderly(Next(h, e, limits))
  {
    match e
    case Reported(key, report) =>
      if key in h.feeds {
        PublishKeepsLife(h.feeds[key], report, limits);
        ReplaceFeed(h, key, PublishTo(h.feeds[key], report, limits));
      }
    case Subscribed(key, now, startup, outcome) =>
      if key in h.feeds {
        AttachKeepsOrderly(h, key);
      } else {
        StartRegisters(h, key, now, startup, outcome, limits);
        if outcome.Started? {
          AttachAfterStart(h, key, StartFeed(h, key, now, startup, outcome, limits));
        }
      }
    case Unsubscribed(key, id) =>
      if key in h.feeds {
        UnsubscribeKeepsOrderly(h, key, id);
      }
    case GraceOver(task) => TeardownKeepsOrderly(h, task);
    case Taken(key, id) =>
      var f := h.feeds[key];
      ReplaceFeed(h, key, f.(subscribers := f.subscribers[id := f.subscribers[id][1..]]));
  }

  predicate PossibleRun(h: Hub, events: seq<HubEvent>, limits: Limits)
    decreases |events|
  {
    events == [] || (Possible(h, events[0]) && PossibleRun(Next(h, events[0], limits), events[1..], limits))
  }

  function RunAll(h: Hub, events: seq<HubEvent>, limits: Limits): Hub
    requires PossibleRun(h, events, limits)
    decreases |events|
  {
    if events == [] then h else RunAll(Next(h, events[0], limits), events[1..], limits)
  }

  /** Over any run of the hub, feeds, subscribers, teardown tasks and workers stay in order: one
      running worker per registered feed, a pending teardown exactly for the feeds without
      subscribers, every stopped worker stopped once and no longer running. */
  lemma {:induction false} HubStaysOrderly(h: Hub, events: seq<HubEvent>, limits: Limits)
    requires Orderly(h) && PossibleRun(h, events, limits)
    ensures Orderly(RunAll(h, events, limits))
    decreases |events|
  {
    if events != [] {
      StepKeepsOrderly(h, events[0], limits);
      HubStaysOrderly(Next(h, events[0], limits), events[1..], limits);
    }
  }

  lemma ReachableHubIsOrderly(events: seq<HubEvent>, limits: Limits)
    requires PossibleRun(EMPTY_HUB, events, limits)
    ensures Orderly(RunAll(EMPTY_HUB, events, limits))
  {
    HubStaysOrderly(EMPTY_HUB, events, limits);
  }

  /** A worker is stopped only in the step that unregisters its feed. */
  lemma StoppedOnlyWithItsFeed(h: Hub, e: HubEvent, limits: Limits)
    requires Orderly(h) && Possible(h, e)
    ensures var g := Next(h, e, limits);
            && h.stopped <= g.stopped
            && forall i :: |h.stopped| <= i < |g.stopped| ==>
                             e.GraceOver? && h.feeds[h.tasks[e.task]].worker == Some(g.stopped[i])
                                   && h.tasks[e.task] !in g.feeds
  {
    if e.GraceOver? {
      TeardownAlwaysFinishes(h, e.task);
    } else if e.Subscribed? && e.key !in h.feeds {
      StartRegisters(h, e.key, e.now, e.startup, e.outcome, limits);
    }
  }
}
