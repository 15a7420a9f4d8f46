/** What the events of a feed say: they are the reports its adapter made, one for one and in order. */
module FeedReports {
  import opened Wrappers
  import opened CandleStream
  import opened StreamProtocol
  import opened StreamDelivery
  import opened StreamDeliveryProofs
  import opened TickCandles
  import FeedLifecycle

  // ----- the reports a feed accepts -----

  /** The reports accepted for the key, by the start time of the feed incarnation that accepted them. */
  function Accepted(w: World, log: map<int, seq<Report>>, e: FeedLifecycle.HubEvent): map<int, seq<Report>> {
    match e
    case Reported(key, report) =>
      if key == w.key && key in w.hub.feeds && w.hub.feeds[key].startedAt in log then
        log[w.hub.feeds[key].startedAt := log[w.hub.feeds[key].startedAt] + [report]]
      else log
    case Subscribed(key, now, startup, outcome) =>
      if key == w.key && key !in w.hub.feeds && outcome.Started? then log[now := startup] else log
    case _ => log
  }

  function AcceptedBy(w: World, log: map<int, seq<Report>>, step: Step): map<int, seq<Report>> {
    match step
    case HubStep(e) => Accepted(w, log, e)
    case Connect(now, startup, outcome) => Accepted(w, log, FeedLifecycle.Subscribed(w.key, now, startup, outcome))
    case _ => log
  }

  function ReportLog(w: World, log: map<int, seq<Report>>, steps: seq<Step>, limits: Limits): map<int, seq<Report>>
    requires PossibleRun(w, steps, limits)
    decreases |steps|
  {
    if steps == [] then log
    else ReportLog(Next(w, steps[0], limits), AcceptedBy(w, log, steps[0]), steps[1..], limits)
  }

  /** An event tells its report: of what kind it was, and what it carried. */
  predicate Tells(event: Event, report: Report) {
    && (event.payload.CandleFinalized? <==> report.Candle? && report.isFinal)
    && (event.payload.ProvisionalUpdate? <==> report.Candle? && !report.isFinal)
    && (event.payload.GapNotice? <==> report.Failure?)
    && (report.Candle? ==> event.payload.openTime == report.openTime && event.payload.ohlcv == report.ohlcv)
    && (report.Failure? ==> event.payload.reasonCode == report.code)
  }

  predicate TellsAll(events: seq<Event>, reports: seq<Report>) {
    && |events| == |reports|
    && forall k :: 0 <= k < |events| ==> events[k].sequence == k && Tells(events[k], reports[k])
  }

  /** A candle means the feed is connected; a failure says what state it leaves. */
  predicate InStateOf(state: FeedState, reports: seq<Report>) {
    if reports == [] then state == Starting
    else
      var last := reports[|reports| - 1];
      state == if last.Failure? then last.state else Connected
  }

  predicate LogTrue(w: World, log: map<int, seq<Report>>) {
    && w.history.Keys == log.Keys
    && (forall t :: t in w.history ==> TellsAll(w.history[t], log[t]))
    && (w.key in w.hub.feeds ==>
          && w.hub.feeds[w.key].startedAt in log
          && InStateOf(w.hub.feeds[w.key].state, log[w.hub.feeds[w.key].startedAt]))
  }

  // ----- every step keeps the log true -----

  lemma TellsOneMore(events: seq<Event>, reports: seq<Report>, report: Report)
    requires TellsAll(events, reports)
    ensures TellsAll(events + [Event(|events|, PayloadOf(report))], reports + [report])
  {
  }

  lemma {:induction false} StartupTells(now: int, reports: seq<Report>, limits: Limits)
    ensures TellsAll(LogOf(reports), reports)
    ensures InStateOf(PublishAll(NewFeed(now), reports, limits).state, reports)
  {
    if reports != [] {
      var front := reports[..|reports| - 1];
      StartupTells(now, front, limits);
      TellsOneMore(LogOf(front), front, reports[|reports| - 1]);
      assert front + [reports[|reports| - 1]] == reports;
    }
  }

  lemma PublishingTells(w: World, log: map<int, seq<Report>>, e: FeedLifecycle.HubEvent, limits: Limits)
    requires FeedTrue(w, limits) && PossibleHub(w, e) && LogTrue(w, log)
    requires e.Reported? && e.key == w.key && w.key in w.hub.feeds
    ensures LogTrue(AfterHub(w, e, limits), Accepted(w, log, e))
  {
    var f := w.hub.feeds[w.key];
    TellsOneMore(w.history[f.startedAt], log[f.startedAt], e.report);
    hide PushRing, RingOf, QueueOk, Tells;
  }

  lemma StartingTells(w: World, log: map<int, seq<Report>>, e: FeedLifecycle.HubEvent, limits: Limits)
    requires PossibleHub(w, e) && LogTrue(w, log)
    requires e.Subscribed? && e.key == w.key && w.key !in w.hub.feeds
    ensures LogTrue(AfterHub(w, e, limits), Accepted(w, log, e))
  {
    FreshFeed(w, e, limits);
    StartupTells(e.now, e.startup, limits);
    hide AfterHub, PublishAll, LogOf, TellsAll, InStateOf;
  }

  lemma QuietlyTells(w: World, v: World, log: map<int, seq<Report>>)
    requires LogTrue(w, log) && QuietFor(w, v) && v.key == w.key
    ensures LogTrue(v, log)
  {
    hide TellsAll, InStateOf;
  }

  lemma HubTells(w: World, log: map<int, seq<Report>>, e: FeedLifecycle.HubEvent, limits: Limits)
    requires FeedTrue(w, limits) && PossibleHub(w, e) && LogTrue(w, log)
    ensures LogTrue(AfterHub(w, e, limits), Accepted(w, log, e))
  {
    if e.Reported? && e.key == w.key && w.key in w.hub.feeds {
      PublishingTells(w, log, e, limits);
    } else if e.Subscribed? && e.key == w.key && w.key !in w.hub.feeds {
      StartingTells(w, log, e, limits);
    } else if e.Reported? && e.key == w.key {
      assert AfterHub(w, e, limits) == w;
    } else {
      QuietHubStep(w, e, limits);
      hide AfterHub, QuietFor, LogTrue;
      QuietlyTells(w, AfterHub(w, e, limits), log);
    }
  }

  lemma PumpTells(w: World, log: map<int, seq<Report>>, limits: Limits)
    requires FeedTrue(w, limits) && Possible(w, Pump) && LogTrue(w, log)
    ensures FeedTrue(AfterPump(w), limits) && LogTrue(AfterPump(w), log)
  {
    var v := AfterPump(w);
    ReadingKeeps(w.hub.feeds[w.key], v.hub.feeds[w.key], w.history[w.hub.feeds[w.key].startedAt], limits);
    hide TellsAll, InStateOf, FeedKeeps;
  }

  lemma StepTells(w: World, log: map<int, seq<Report>>, step: Step, limits: Limits)
    requires FeedTrue(w, limits) && Possible(w, step) && LogTrue(w, log) && limits.ringSize >= 1
    ensures FeedTrue(Next(w, step, limits), limits) && LogTrue(Next(w, step, limits), AcceptedBy(w, log, step))
  {
    hide FeedKeeps, TellsAll, InStateOf, AfterHub, AfterPump;
    match step
    case HubStep(e) =>
      HubTells(w, log, e, limits);
      HubKeepsFeedTrue(w, e, limits);
    case Connect(now, startup, outcome) =>
      var e := FeedLifecycle.Subscribed(w.key, now, startup, outcome);
      HubTells(w, log, e, limits);
      HubKeepsFeedTrue(w, e, limits);
    case Pump => PumpTells(w, log, limits);
    case _ =>
  }

  lemma {:induction false} RunTells(w: World, log: map<int, seq<Report>>, steps: seq<Step>, limits: Limits)
    requires FeedTrue(w, limits) && LogTrue(w, log) && limits.ringSize >= 1 && PossibleRun(w, steps, limits)
    ensures FeedTrue(RunAll(w, steps, limits), limits)
    ensures LogTrue(RunAll(w, steps, limits), ReportLog(w, log, steps, limits))
    decreases |steps|
  {
    hide FeedTrue, LogTrue, Next, AcceptedBy;
    if steps != [] {
      StepTells(w, log, steps[0], limits);
      RunTells(Next(w, steps[0], limits), AcceptedBy(w, log, steps[0]), steps[1..], limits);
    }
  }

  /** Over any run, over all incarnations: event k of a feed tells the k-th report the feed accepted, a
      finalized candle exactly for a final one, a provisional update exactly for another, and a gap
      notice exactly for a failure; the ring buffer holds the newest of them, and the feed is in the
      state its last report means. */
  lemma EventsAreReports(key: StreamFeedKey, policy: Policy, steps: seq<Step>, limits: Limits)
    requires limits.ringSize >= 1 && PossibleRun(StartOf(key, policy), steps, limits)
    ensures var w := RunAll(StartOf(key, policy), steps, limits);
            var reports := ReportLog(StartOf(key, policy), map[], steps, limits);
            && w.history.Keys == reports.Keys
            && (forall t :: t in reports ==> TellsAll(w.history[t], reports[t]))
            && (w.key in w.hub.feeds ==>
                  var f := w.hub.feeds[w.key];
                  && f.startedAt in reports && InStateOf(f.state, reports[f.startedAt])
                  && f.ring == RingOf(w.history[f.startedAt], limits.ringSize))
  {
    RunTells(StartOf(key, policy), map[], steps, limits);
  }

  // ----- from ticks to events -----

  function FinalizedIn(events: seq<Event>): seq<Bucket> {
    if events == [] then []
    else
      var last := events[|events| - 1].payload;
      FinalizedIn(events[..|events| - 1])
      + if last.CandleFinalized? then [Bucket(last.openTime, last.ohlcv)] else []
  }

  /** The candles among some reports. */
  function CandlesOf(reports: seq<Report>): seq<Report> {
    if reports == [] then []
    else CandlesOf(reports[..|reports| - 1]) + if reports[|reports| - 1].Candle? then [reports[|reports| - 1]] else []
  }

  lemma {:induction false} FinalizedAreFinals(events: seq<Event>, reports: seq<Report>)
    requires TellsAll(events, reports)
    ensures FinalizedIn(events) == Finals(CandlesOf(reports))
  {
    if events != [] {
      var n := |events| - 1;
      FinalizedAreFinals(events[..n], reports[..n]);
      assert Tells(events[n], reports[n]);
      var (earlier, last) := (CandlesOf(reports[..n]), reports[n]);
      if last.Candle? {
        assert CandlesOf(reports) == earlier + [last];
        FinalsOfOneMore(earlier, last);
      } else {
        assert CandlesOf(reports) == earlier;
      }
    }
  }

  /** From ticks to what is published: if the candles an incarnation was reported are those of the
      worker's loop over some ticks, failures in between or not, then its finalized events are the
      batch candles of those ticks, in order, each bucket once and none missing but the newest. */
  lemma FinalizedEventsAreBatchCandles(key: StreamFeedKey, policy: Policy, steps: seq<Step>, limits: Limits, t: int,
        ticks: seq<Tick>, width: nat)
    requires limits.ringSize >= 1 && width > 0 && PossibleRun(StartOf(key, policy), steps, limits)
    requires var reports := ReportLog(StartOf(key, policy), map[], steps, limits);
             t in reports && CandlesOf(reports[t]) == AddAll(ticks, width).1
    ensures var w := RunAll(StartOf(key, policy), steps, limits);
            && t in w.history
            && match AddAll(ticks, width).0
               case None => FinalizedIn(w.history[t]) == []
               case Some(newest) => FinalsAreBatches(ticks, FinalizedIn(w.history[t]), newest.openTime, width)
  {
    EventsAreReports(key, policy, steps, limits);
    var w := RunAll(StartOf(key, policy), steps, limits);
    var reports := ReportLog(StartOf(key, policy), map[], steps, limits);
    hide PossibleRun, RunAll, ReportLog, FinalsAreBatches, IsBatch, NewestSoFar, TellsAll;
    FinalizedAreFinals(w.history[t], reports[t]);
    StreamingRefinesBatch(ticks, width);
  }

  // ----- queues -----

  /** A report to the feed adds its event to the queue of a subscriber or, only if the queue is full,
      replaces it all by the overflow sentinel; a reader takes the first item of its own queue; nothing
      else touches it. */
  predicate QueueMoved(h: Hub, e: FeedLifecycle.HubEvent, limits: Limits, key: StreamFeedKey, id: nat, f: Feed)
    requires key in h.feeds && id in h.feeds[key].subscribers && id in f.subscribers
  {
    var (queue, after) := (h.feeds[key].subscribers[id], f.subscribers[id]);
    if e.Reported? && e.key == key then
      && f.ring != []
      && after == if |queue| < limits.queueSize then queue + [Delivery(f.ring[|f.ring| - 1])] else [SubscriberOverflow]
    else if e.Taken? && e.key == key && e.id == id then queue != [] && after == queue[1..]
    else after == queue
  }

  predicate Stays(h: Hub, g: Hub, key: StreamFeedKey, id: nat) {
    && key in h.feeds && id in h.feeds[key].subscribers && id < h.nextSubscriber
    && key in g.feeds && id in g.feeds[key].subscribers
  }

  lemma ReportMovesQueue(h: Hub, at: StreamFeedKey, report: Report, limits: Limits, key: StreamFeedKey, id: nat)
    requires Stays(h, Publish(h, at, report, limits), key, id) && limits.ringSize >= 1
    ensures QueueMoved(h, FeedLifecycle.Reported(at, report), limits, key, id, Publish(h, at, report, limits).feeds[key])
  {
  }

  lemma JoiningMovesNoQueue(h: Hub, e: FeedLifecycle.HubEvent, limits: Limits, key: StreamFeedKey, id: nat)
    requires FeedLifecycle.Possible(h, e) && e.Subscribed? && Stays(h, FeedLifecycle.Next(h, e, limits), key, id)
    ensures QueueMoved(h, e, limits, key, id, FeedLifecycle.Next(h, e, limits).feeds[key])
  {
    hide PublishAll;
    if e.key !in h.feeds {
      FeedLifecycle.StartRegisters(h, e.key, e.now, e.startup, e.outcome, limits);
    }
  }

  lemma LeavingMovesNoQueue(h: Hub, e: FeedLifecycle.HubEvent, limits: Limits, key: StreamFeedKey, id: nat)
    requires FeedLifecycle.Possible(h, e) && (e.Unsubscribed? || e.GraceOver?)
    requires Stays(h, FeedLifecycle.Next(h, e, limits), key, id)
    ensures QueueMoved(h, e, limits, key, id, FeedLifecycle.Next(h, e, limits).feeds[key])
  {
  }

  lemma ReadingMovesOwnQueue(h: Hub, e: FeedLifecycle.HubEvent, limits: Limits, key: StreamFeedKey, id: nat)
    requires FeedLifecycle.Possible(h, e) && e.Taken? && Stays(h, FeedLifecycle.Next(h, e, limits), key, id)
    ensures QueueMoved(h, e, limits, key, id, FeedLifecycle.Next(h, e, limits).feeds[key])
  {
  }

  /** What one hub event does to the queue of a subscriber who stays. */
  lemma QueuesMove(h: Hub, e: FeedLifecycle.HubEvent, limits: Limits, key: StreamFeedKey, id: nat)
    requires FeedLifecycle.Possible(h, e) && limits.ringSize >= 1 && Stays(h, FeedLifecycle.Next(h, e, limits), key, id)
    ensures QueueMoved(h, e, limits, key, id, FeedLifecycle.Next(h, e, limits).feeds[key])
  {
    hide QueueMoved, Stays, Publish, Subscribe, Unsubscribe, TeardownAfterGrace, Take;
    match e
    case Reported(at, report) => ReportMovesQueue(h, at, report, limits, key, id);
    case Subscribed(_, _, _, _) => JoiningMovesNoQueue(h, e, limits, key, id);
    case Taken(_, _) => ReadingMovesOwnQueue(h, e, limits, key, id);
    case _ => LeavingMovesNoQueue(h, e, limits, key, id);
  }
}
