/** Delivery of outbox events to their recipients
    (app/notifications/application/deliver_notifications.py). */
module Outbox {
  import opened Wrappers

  datatype EventStatus = Pending | Published | Abandoned
  datatype NotificationStatus = Queued | Sent | Failed | Acknowledged

  /** `about` names the outbox event a give-up event announces; only give-up events have it. */
  datatype OutboxEvent = OutboxEvent(
    correlation: nat, about: Option<nat>, status: EventStatus, attempts: nat, availableAt: int, publishedAt: Option<int>)

  datatype Notification = Notification(status: NotificationStatus, deliveryAttempts: nat, sentAt: Option<int>)

  datatype Recipient = Recipient(channel: string, ref: string)
  datatype Key = Key(systemEvent: nat, recipient: Recipient)

  /** One call of an adapter, and whether it went through. */
  datatype Sending = Sending(key: Key, ok: bool)

  datatype Tables = Tables(
    events: map<nat, OutboxEvent>, systemEvents: map<nat, nat>, notifications: map<Key, Notification>, nextId: nat)

  /** What a pass meets: the time, the batch it claimed, who is to be told about an event, which
      channels have an adapter, and whether the n-th sending of all goes through. */
  datatype Pass = Pass(
    now: int, batch: seq<nat>, resolve: nat -> seq<Recipient>, adapters: set<string>, succeeds: nat -> bool)

  const BATCH_SIZE: nat := 50
  const MAX_ATTEMPTS: nat := 5
  const BACKOFF_BASE_SECONDS: nat := 30

  function TwoTo(n: nat): nat { if n == 0 then 1 else 2 * TwoTo(n - 1) }

  /** Due pending events, each once, the longest due first. */
  predicate Claimable(t: Tables, pass: Pass) {
    && |pass.batch| <= BATCH_SIZE
    && (forall i :: 0 <= i < |pass.batch| ==>
          && pass.batch[i] in t.events && t.events[pass.batch[i]].status == Pending
          && t.events[pass.batch[i]].availableAt <= pass.now)
    && (forall i, j :: 0 <= i < j < |pass.batch| ==>
          pass.batch[i] != pass.batch[j]
          && (pass.batch[i] in t.events && pass.batch[j] in t.events ==>
                t.events[pass.batch[i]].availableAt <= t.events[pass.batch[j]].availableAt))
  }

  // ----- one event -----

  predicate Reached(notifications: map<Key, Notification>, key: Key) {
    key in notifications && notifications[key].status in {Sent, Acknowledged}
  }

  datatype Progress = Progress(notifications: map<Key, Notification>, sent: seq<Sending>, anyFailed: bool)

  function Tell(p: Progress, key: Key, pass: Pass): Progress {
    if key.recipient.channel !in pass.adapters || Reached(p.notifications, key) then p
    else
      var n := if key in p.notifications then p.notifications[key] else Notification(Queued, 0, None);
      if pass.succeeds(|p.sent|) then
        p.(notifications := p.notifications[key := n.(status := Sent, sentAt := Some(pass.now))],
              sent := p.sent + [Sending(key, true)])
      else
        Progress(p.notifications[key := n.(status := Failed, deliveryAttempts := n.deliveryAttempts + 1)],
                 p.sent + [Sending(key, false)], true)
  }

  function TellAll(p: Progress, systemEvent: nat, recipients: seq<Recipient>, pass: Pass): Progress {
    if recipients == [] then p
    else
      var last := |recipients| - 1;
      Tell(TellAll(p, systemEvent, recipients[..last], pass), Key(systemEvent, recipients[last]), pass)
  }

  function Settled(e: OutboxEvent, anyFailed: bool, now: int): OutboxEvent {
    if !anyFailed then e.(status := Published, publishedAt := Some(now))
    else if e.attempts + 1 >= MAX_ATTEMPTS then e.(attempts := e.attempts + 1, status := Abandoned)
    else e.(attempts := e.attempts + 1, availableAt := now + BACKOFF_BASE_SECONDS * TwoTo(e.attempts + 1))
  }

  /** A new event, with its own system event, telling that another was given up. */
  function Announced(t: Tables, id: nat, now: int): Tables {
    t.(events := t.events[t.nextId := OutboxEvent(t.nextId, Some(id), Pending, 0, now, None)],
       systemEvents := t.systemEvents[t.nextId := t.nextId], nextId := t.nextId + 1)
  }

  predicate GivesUp(e: OutboxEvent, anyFailed: bool) {
    anyFailed && e.attempts + 1 >= MAX_ATTEMPTS && e.about.None?
  }

  function Deliver(t: Tables, sent: seq<Sending>, id: nat, pass: Pass): (Tables, seq<Sending>)
    requires id in t.events
  {
    var e := t.events[id];
    if e.correlation !in t.systemEvents then
      (t.(events := t.events[id := e.(status := Abandoned, attempts := e.attempts + 1)]), sent)
    else
      var p := TellAll(Progress(t.notifications, sent, false), t.systemEvents[e.correlation], pass.resolve(id), pass);
      var told := t.(notifications := p.notifications, events := t.events[id := Settled(e, p.anyFailed, pass.now)]);
      (if GivesUp(e, p.anyFailed) then Announced(told, id, pass.now) else told, p.sent)
  }

  function DeliverBatch(t: Tables, sent: seq<Sending>, pass: Pass, n: nat): (Tables, seq<Sending>)
    requires n <= |pass.batch| && forall i :: 0 <= i < |pass.batch| ==> pass.batch[i] in t.events
    ensures t.events.Keys <= DeliverBatch(t, sent, pass, n).0.events.Keys
  {
    if n == 0 then (t, sent)
    else
      var (u, more) := DeliverBatch(t, sent, pass, n - 1);
      Deliver(u, more, pass.batch[n - 1], pass)
  }

  /** How many of the first `n` events of a batch are found to have a system event. */
  function Processed(t: Tables, sent: seq<Sending>, pass: Pass, n: nat): nat
    requires n <= |pass.batch| && forall i :: 0 <= i < |pass.batch| ==> pass.batch[i] in t.events
  {
    if n == 0 then 0
    else
      var u := DeliverBatch(t, sent, pass, n - 1).0;
      Processed(t, sent, pass, n - 1) + if u.events[pass.batch[n - 1]].correlation in u.systemEvents then 1 else 0
  }

  lemma BatchStep(t: Tables, sent: seq<Sending>, pass: Pass, n: nat)
    requires n < |pass.batch| && forall i :: 0 <= i < |pass.batch| ==> pass.batch[i] in t.events
    ensures var (u, more) := DeliverBatch(t, sent, pass, n);
            && pass.batch[n] in u.events
            && DeliverBatch(t, sent, pass, n + 1) == Deliver(u, more, pass.batch[n], pass)
            && Processed(t, sent, pass, n + 1) ==
               Processed(t, sent, pass, n) + if u.events[pass.batch[n]].correlation in u.systemEvents then 1 else 0
  {
    hide Deliver;
  }

  // ----- the worker, as it runs -----

  class NotificationWorker {
    var events: map<nat, OutboxEvent>
    var systemEvents: map<nat, nat>
    var notifications: map<Key, Notification>
    var nextId: nat
    /** Every call of an adapter so far. */
    var sent: seq<Sending>

    ghost function State(): Tables
      reads this
    {
      Tables(events, systemEvents, notifications, nextId)
    }

    constructor ()
      ensures State() == Tables(map[], map[], map[], 0) && sent == []
    {
      events, systemEvents, notifications, nextId, sent := map[], map[], map[], 0, [];
    }

    method Send(key: Key, pass: Pass) returns (ok: bool)
      modifies this`sent
      ensures ok == pass.succeeds(|old(sent)|) && sent == old(sent) + [Sending(key, ok)]
    {
      ok := pass.succeeds(|sent|);
      sent := sent + [Sending(key, ok)];
    }

    method TellRecipients(systemEvent: nat, recipients: seq<Recipient>, pass: Pass) returns (anyFailed: bool)
      modifies this`notifications, this`sent
      ensures Progress(notifications, sent, anyFailed)
           == TellAll(Progress(old(notifications), old(sent), false), systemEvent, recipients, pass)
    {
      anyFailed := false;
      var k := 0;
      while k < |recipients|
        invariant 0 <= k <= |recipients|
        invariant Progress(notifications, sent, anyFailed)
               == TellAll(Progress(old(notifications), old(sent), false), systemEvent, recipients[..k], pass)
      {
        assert recipients[..k + 1][..k] == recipients[..k];
        var key := Key(systemEvent, recipients[k]);
        if recipients[k].channel in pass.adapters && !(key in notifications
              && notifications[key].status in {Sent, Acknowledged}) {
          if key !in notifications {
            notifications := notifications[key := Notification(Queued, 0, None)];
          }
          var n := notifications[key];
          var ok := Send(key, pass);
          if ok {
            notifications := notifications[key := n.(status := Sent, sentAt := Some(pass.now))];
          } else {
            notifications := notifications[key := n.(status := Failed, deliveryAttempts := n.deliveryAttempts + 1)];
            anyFailed := true;
          }
        }
        k := k + 1;
      }
      assert recipients[..k] == recipients;
    }

    method AnnounceGiveUp(id: nat, now: int)
      requires id in events
      modifies this
      ensures sent == old(sent)
      ensures State() == if old(events)[id].about.None? then Announced(old(State()), id, now) else old(State())
    {
      if events[id].about.Some? {
        return;
      }
      events := events[nextId := OutboxEvent(nextId, Some(id), Pending, 0, now, None)];
      systemEvents := systemEvents[nextId := nextId];
      nextId := nextId + 1;
    }

    method DeliverEvent(id: nat, pass: Pass) returns (known: bool)
      requires id in events
      modifies this
      ensures known == (old(events)[id].correlation in old(systemEvents))
      ensures (State(), sent) == Deliver(old(State()), old(sent), id, pass)
    {
      hide TellAll;
      var e := events[id];
      if e.correlation !in systemEvents {
        events := events[id := e.(status := Abandoned, attempts := e.attempts + 1)];
        return false;
      }
      var anyFailed := TellRecipients(systemEvents[e.correlation], pass.resolve(id), pass);
      if anyFailed {
        var attempts := e.attempts + 1;
        if attempts >= MAX_ATTEMPTS {
          events := events[id := e.(attempts := attempts, status := Abandoned)];
          AnnounceGiveUp(id, pass.now);
        } else {
          events := events[id := e.(attempts := attempts, availableAt := pass.now + BACKOFF_BASE_SECONDS * TwoTo(attempts))];
        }
      } else {
        events := events[id := e.(status := Published, publishedAt := Some(pass.now))];
      }
      return true;
    }

    method DeliverPending(pass: Pass) returns (processed: nat)
      requires Claimable(State(), pass)
      modifies this
      ensures (State(), sent) == DeliverBatch(old(State()), old(sent), pass, |pass.batch|)
      ensures processed == Processed(old(State()), old(sent), pass, |pass.batch|)
    {
      processed := 0;
      var k := 0;
      while k < |pass.batch|
        invariant 0 <= k <= |pass.batch|
        invariant forall i :: 0 <= i < |pass.batch| ==> pass.batch[i] in old(State()).events
        invariant (State(), sent) == DeliverBatch(old(State()), old(sent), pass, k)
        invariant processed == Processed(old(State()), old(sent), pass, k)
      {
        BatchStep(old(State()), old(sent), pass, k);
        hide Deliver, DeliverBatch, Processed;
        var known := DeliverEvent(pass.batch[k], pass);
        if known {
          processed := processed + 1;
        }
        k := k + 1;
      }
    }
  }
}
