/** What holds over every run of the event pipeline. */
module PipelineProperties {
  import opened Wrappers
  import opened Tables
  import opened Pipeline
  import Clock
  import Backoff

  ghost predicate Reachable(w: World) {
    exists now: int, steps: seq<Step> :: w == Run(Start(now), steps)
  }

  lemma ReachableInv(w: World)
    requires Reachable(w)
    ensures Inv(w)
  {
    var now: int, steps: seq<Step> :| w == Run(Start(now), steps);
    InvInitially(now);
    InvRun(Start(now), steps);
  }

  /** An accepted event is never forgotten: until a run of the process handler has done everything for
      it, it is stored unprocessed, and as long as it is stored unprocessed a message for it is queued
      that no finished delivery is about to ack. This holds whatever commits, rolls back, commits with an
      error reported, is redelivered, crashes or is cleaned up. */
  lemma AcceptedEventsAreNotForgotten(w: World)
    requires Reachable(w)
    ensures forall id :: id in w.h.accepted ==> id in w.h.completed || Unprocessed(w, id)
    ensures forall id :: Unprocessed(w, id) ==> exists uuid :: Announces(w, uuid, id)
  {
    ReachableInv(w);
    forall id | Unprocessed(w, id) ensures exists uuid :: Announces(w, uuid, id) {
      assert IsAnnounced(w, id);
    }
  }

  /** Acking a finished delivery never removes the message an unprocessed event depends on. */
  lemma AckIsHarmless(w: World, d: nat, outcome: Outcome, id: string)
    requires Reachable(w) && IsAt(w, d, Handled(true)) && Unprocessed(w, id)
    ensures IsAnnounced(Next(w, SettleAck(d, outcome)), id)
  {
    ReachableInv(w);
    InvNext(w, SettleAck(d, outcome));
    assert Unprocessed(Next(w, SettleAck(d, outcome)), id);
  }

  // ---------------------------------------------------------------- the queue

  /** The step is a committed nack of the message. */
  predicate NacksIt(w: World, s: Step, uuid: string) {
    && s.SettleNack? && !s.outcome.RolledBack? && IsAt(w, s.d, Handled(false))
    && w.deliveries[s.d].uuid == uuid && uuid in w.db.pubsub
  }

  /** The committed nacks of a message in a run, counted from the steps. */
  function CommittedNacks(w: World, steps: seq<Step>, uuid: string): nat {
    if steps == [] then 0
    else
      var before := steps[..|steps| - 1];
      CommittedNacks(w, before, uuid) + if NacksIt(Run(w, before), steps[|steps| - 1], uuid) then 1 else 0
  }

  lemma NackStep(w: World, s: Step, uuid: string)
    requires Inv(w)
    ensures var w' := Next(w, s);
            && (uuid in w.h.nacks ==>
                uuid in w'.h.nacks && w'.h.nacks[uuid] == w.h.nacks[uuid] + if NacksIt(w, s, uuid) then 1 else 0)
            && (uuid !in w.h.nacks ==> !NacksIt(w, s, uuid) && (uuid in w'.h.nacks ==> w'.h.nacks[uuid] == 0))
  {
  }

  lemma {:induction false} NacksCounted(now: int, steps: seq<Step>, uuid: string)
    ensures var w := Run(Start(now), steps);
            CommittedNacks(Start(now), steps, uuid) == if uuid in w.h.nacks then w.h.nacks[uuid] else 0
  {
    if steps != [] {
      var before := steps[..|steps| - 1];
      NacksCounted(now, before, uuid);
      InvInitially(now);
      InvRun(Start(now), before);
      NackStep(Run(Start(now), before), steps[|steps| - 1], uuid);
    }
  }

  /** Over every run the committed messages are exactly the queued and the acked ones, none both; a queued
      message says what it said when published, and its nack count is the number of committed nacks. */
  lemma QueueIsConserved(now: int, steps: seq<Step>)
    ensures var w := Run(Start(now), steps);
            && w.h.announced.Keys == w.db.pubsub.Keys + w.h.acked && w.db.pubsub.Keys !! w.h.acked
            && forall uuid :: uuid in w.db.pubsub ==>
                 && (w.db.pubsub[uuid].topic, w.db.pubsub[uuid].payload) == w.h.announced[uuid]
                 && w.db.pubsub[uuid].nackCount == CommittedNacks(Start(now), steps, uuid)
  {
    InvInitially(now);
    InvRun(Start(now), steps);
    var w := Run(Start(now), steps);
    forall uuid | uuid in w.db.pubsub ensures w.db.pubsub[uuid].nackCount == CommittedNacks(Start(now), steps, uuid) {
      NacksCounted(now, steps, uuid);
    }
  }

  /** What was once announced stays as it was, and what was once acked stays acked. */
  lemma {:induction false} AnnouncementsStay(w: World, steps: seq<Step>, uuid: string)
    requires uuid in w.h.announced
    ensures uuid in Run(w, steps).h.announced && Run(w, steps).h.announced[uuid] == w.h.announced[uuid]
    ensures uuid in w.h.acked ==> uuid in Run(w, steps).h.acked
  {
    if steps != [] {
      AnnouncementsStay(w, steps[..|steps| - 1], uuid);
    }
  }

  /** An acked message is never read again. */
  lemma AckedStaysAway(w: World, steps: seq<Step>, d: nat, uuid: string)
    requires Reachable(w) && uuid in w.h.acked
    ensures var w' := Run(w, steps); uuid !in w'.db.pubsub && Next(w', Read(d, uuid)) == w'
  {
    ReachableInv(w);
    InvRun(w, steps);
    AnnouncementsStay(w, steps, uuid);
  }

  /** A queued message is delivered when it is read iff it was never nacked or its latest backoff is over, to the
      second, however often it was nacked; what is delivered is the event that it announces. */
  lemma DueIff(w: World, d: nat, uuid: string)
    requires Reachable(w) && uuid in w.db.pubsub && w.db.pubsub[uuid].topic == EVENT_SAVED_TOPIC && d !in w.deliveries
    ensures var w' := Next(w, Read(d, uuid));
            && (d in w'.deliveries <==> (uuid in w.h.until ==> Clock.Unix(w.h.until[uuid]) <= Clock.Unix(w.now)))
            && (d in w'.deliveries ==>
                  && uuid in w.h.announced
                  && w'.deliveries == w.deliveries[d := Delivery(uuid, w.h.announced[uuid].1, Received)])
  {
    ReachableInv(w);
  }

  /** A save that commits stores a new event that is wanted, unprocessed, and queues one message about it. */
  lemma SavedIff(w: World, id: string, uuid: string, wanted: bool, outcome: Outcome)
    requires Reachable(w)
    ensures var w' := Next(w, Save(id, uuid, wanted, outcome));
            && (w' != w <==> wanted && !outcome.RolledBack? && id !in w.db.events && uuid !in w.h.announced)
            && (w' != w ==>
                  && w'.db.events == w.db.events[id := EventRow(None)] && w'.h.accepted == w.h.accepted + {id}
                  && w'.db.pubsub == w.db.pubsub[uuid := Message("event_saved", id, Clock.Unix(w.now), 0, None)]
                  && w'.h.announced == w.h.announced[uuid := ("event_saved", id)])
  {
    ReachableInv(w);
    var w' := Next(w, Save(id, uuid, wanted, outcome));
    if wanted && !outcome.RolledBack? && id !in w.db.events && uuid !in w.h.announced {
      assert id in w'.db.events;
    }
  }

  /** That is the only way an event gets stored. */
  lemma OnlySavesStore(w: World, s: Step, id: string)
    requires id !in w.db.events && id in Next(w, s).db.events
    ensures s.Save? && s.id == id
  {
  }

  /** The whole way of a delivery when nothing goes wrong. */
  function GoodDelivery(d: nat, uuid: string): seq<Step> {
    [Read(d, uuid), Load(d, true), SaveContacts(d, Committed), PublishExternally(d, true), SendToRelay(d, true),
     Mark(d, Committed), SettleAck(d, Committed)]
  }

  lemma RunSeven(w: World, a: Step, b: Step, c: Step, d: Step, e: Step, f: Step, g: Step)
    ensures Run(w, [a, b, c, d, e, f, g]) == Next(Next(Next(Next(Next(Next(Next(w, a), b), c), d), e), f), g)
  {
    var none: seq<Step> := [];
    assert [a, b, c, d, e, f, g] == none + [a] + [b] + [c] + [d] + [e] + [f] + [g];
    RunOne(w, none, a);
    RunOne(w, none + [a], b);
    RunOne(w, none + [a] + [b], c);
    RunOne(w, none + [a] + [b] + [c], d);
    RunOne(w, none + [a] + [b] + [c] + [d], e);
    RunOne(w, none + [a] + [b] + [c] + [d] + [e], f);
    RunOne(w, none + [a] + [b] + [c] + [d] + [e] + [f], g);
  }

  lemma HandledWell(w: World, d: nat, uuid: string, id: string)
    requires d in w.deliveries && w.deliveries[d] == Delivery(uuid, id, Received) && id in w.db.events
    ensures Next(Next(Next(Next(w, Load(d, true)), SaveContacts(d, Committed)), PublishExternally(d, true)),
                 SendToRelay(d, true)) ==
            w.(deliveries := w.deliveries[d := Delivery(uuid, id, Sent)],
               h := w.h.(completed := w.h.completed + {id}))
  {
    var loaded := Next(w, Load(d, true));
    assert loaded == w.(deliveries := w.deliveries[d := Delivery(uuid, id, Loaded)]);
    var saved := Next(loaded, SaveContacts(d, Committed));
    assert saved == w.(deliveries := w.deliveries[d := Delivery(uuid, id, ContactsSaved)]);
    var published := Next(saved, PublishExternally(d, true));
    assert published == w.(deliveries := w.deliveries[d := Delivery(uuid, id, Published)]);
  }

  lemma FinishedWell(w: World, d: nat, uuid: string, id: string)
    requires d in w.deliveries && w.deliveries[d] == Delivery(uuid, id, Sent) && id in w.db.events
    requires uuid in w.db.pubsub
    ensures var w' := Next(Next(w, Mark(d, Committed)), SettleAck(d, Committed));
            && w'.db.events == w.db.events[id := EventRow(Some(Clock.Unix(w.now)))]
            && w'.db.pubsub == w.db.pubsub - {uuid} && w'.deliveries == w.deliveries - {d} && w'.now == w.now
            && w'.h.completed == w.h.completed && w'.h.acked == w.h.acked + {uuid}
  {
    var marked := Next(w, Mark(d, Committed));
    assert marked.deliveries == w.deliveries[d := Delivery(uuid, id, Handled(true))];
    assert marked.deliveries - {d} == w.deliveries - {d};
  }

  /** From whatever state the queue has come to, a message that is due and whose event is stored can be dealt with
      at once: the event is then marked as processed now and the message acked, and nothing else is different. */
  lemma DueEventCanBeFinished(w: World, d: nat, uuid: string)
    requires Reachable(w) && uuid in w.db.pubsub && w.db.pubsub[uuid].topic == EVENT_SAVED_TOPIC && d !in w.deliveries
    requires uuid in w.h.until ==> Clock.Unix(w.h.until[uuid]) <= Clock.Unix(w.now)
    requires w.db.pubsub[uuid].payload in w.db.events
    ensures var w' := Run(w, GoodDelivery(d, uuid));
            var id := w.db.pubsub[uuid].payload;
            && w'.db.events == w.db.events[id := EventRow(Some(Clock.Unix(w.now)))]
            && w'.db.pubsub == w.db.pubsub - {uuid} && w'.deliveries == w.deliveries && w'.now == w.now
            && id in w'.h.completed && uuid in w'.h.acked
  {
    var id := w.db.pubsub[uuid].payload;
    RunSeven(w, Read(d, uuid), Load(d, true), SaveContacts(d, Committed), PublishExternally(d, true),
             SendToRelay(d, true), Mark(d, Committed), SettleAck(d, Committed));
    DueIff(w, d, uuid);
    ReachableInv(w);
    var received := Next(w, Read(d, uuid));
    assert received == w.(deliveries := w.deliveries[d := Delivery(uuid, id, Received)]);
    HandledWell(received, d, uuid, id);
    var sent := Next(Next(Next(Next(received, Load(d, true)), SaveContacts(d, Committed)), PublishExternally(d, true)),
                     SendToRelay(d, true));
    FinishedWell(sent, d, uuid, id);
    assert received.deliveries - {d} == w.deliveries && sent.deliveries - {d} == w.deliveries;
  }

  /** A marking that commits sets the time and an ack that commits removes the message, also when an error is
      reported; one that is rolled back does neither. */
  lemma SettlingDoes(w: World, d: nat, outcome: Outcome)
    requires d in w.deliveries
    ensures w.deliveries[d].phase == Sent && w.deliveries[d].event in w.db.events ==>
              Next(w, Mark(d, outcome)).db.events ==
              if outcome.RolledBack? then w.db.events
              else w.db.events[w.deliveries[d].event := EventRow(Some(Clock.Unix(w.now)))]
    ensures w.deliveries[d].phase == Handled(true) ==>
              var w' := Next(w, SettleAck(d, outcome));
              d !in w'.deliveries && w'.db.pubsub == if outcome.RolledBack? then w.db.pubsub
              else w.db.pubsub - {w.deliveries[d].uuid}
  {
  }

  /** A crash, or a context that ends, loses deliveries and nothing else: a message that is due is delivered again. */
  lemma CrashLosesOnlyDeliveries(w: World, d: nat, uuid: string)
    requires Reachable(w) && uuid in w.db.pubsub && w.db.pubsub[uuid].topic == EVENT_SAVED_TOPIC
    requires uuid in w.h.until ==> Clock.Unix(w.h.until[uuid]) <= Clock.Unix(w.now)
    ensures var again := map[d := Delivery(uuid, w.db.pubsub[uuid].payload, Received)];
            && Next(Next(w, Crash), Read(d, uuid)) == w.(deliveries := again)
            && Next(Next(w, Abandon(d)), Read(d, uuid)) == w.(deliveries := w.deliveries + again)
  {
    ReachableInv(w);
    assert (w.deliveries - {d}) + map[d := Delivery(uuid, w.db.pubsub[uuid].payload, Received)] ==
           (w.deliveries - {d})[d := Delivery(uuid, w.db.pubsub[uuid].payload, Received)];
  }

  /** A nacked message is delivered again at most a second before its latest backoff is over. */
  lemma NackedNotReadEarly(w: World, d: nat, uuid: string)
    requires Reachable(w) && uuid in w.h.until && Next(w, Read(d, uuid)) != w
    ensures w.now > w.h.until[uuid] - 1_000_000_000
  {
    ReachableInv(w);
  }

  /** The latest backoff, jitter included, is about min(4^(n-1), 3600) seconds for the n-th nack. */
  lemma NackBacksOff(w: World, d: nat, outcome: Outcome, saturates: bool, draw: Backoff.Draw)
    requires Reachable(w) && IsAt(w, d, Handled(false)) && !outcome.RolledBack?
    requires w.deliveries[d].uuid in w.db.pubsub && Backoff.IsDraw(draw)
    ensures var uuid := w.deliveries[d].uuid;
            var w' := Next(w, SettleNack(d, outcome, saturates, draw));
            var exact := Backoff.Min(Backoff.Pow(4, w.db.pubsub[uuid].nackCount), 3600) * 1_000_000_000;
            && uuid in w'.h.until && uuid in w'.db.pubsub
            && exact * 9 / 10 - 1 <= w'.h.until[uuid] - w.now <= exact * 11 / 10
            && w'.db.pubsub[uuid].backoffUntil == Some(Clock.Unix(w'.h.until[uuid]))
  {
    var uuid := w.deliveries[d].uuid;
    Backoff.JitterWithinTenPercent(w.db.pubsub[uuid].nackCount + 1, saturates, draw);
    ReachableInv(w);
  }

  // ---------------------------------------------------------------- deletion

  /** Only clean-up deletes events, only events for which the process handler completed, and only when
      more than an hour has passed since the latest marking, although both times are cut to seconds. */
  lemma DeletionIsSafe(w: World, s: Step, id: string)
    requires Reachable(w) && id in w.db.events && id !in Next(w, s).db.events
    ensures s.Cleanup? && id in w.h.completed
    ensures id in w.h.marked && w.now - w.h.marked[id] > 3_600_000_000_000
  {
    ReachableInv(w);
  }

  /** A committed clean-up that looked at the clock `ago` before deletes whatever was marked an hour and a
      second before that look, and keeps whatever was marked less than an hour before it. */
  lemma CleanupBounds(w: World, ago: nat, outcome: Outcome, id: string)
    requires Reachable(w) && !outcome.RolledBack? && id in w.db.events && w.db.events[id].processedAt.Some?
    ensures id in w.h.marked
    ensures var age := w.now - ago - w.h.marked[id];
            && (age >= 3_601_000_000_000 ==>
                id !in Next(w, Cleanup(ago, outcome)).db.events)
            && (age <= 3_600_000_000_000 ==> id in Next(w, Cleanup(ago, outcome)).db.events)
  {
    ReachableInv(w);
  }

  // ---------------------------------------------------------------- messages that outlive their events

  /** A message whose event is gone, with no delivery of it that got beyond looking for the event. */
  ghost predicate Stranded(w: World, uuid: string, id: string) {
    && id !in w.db.events && uuid in w.db.pubsub && w.db.pubsub[uuid].payload == id
    && forall d :: d in w.deliveries && w.deliveries[d].uuid == uuid ==>
         w.deliveries[d].event == id && (w.deliveries[d].phase == Received || w.deliveries[d].phase == Handled(false))
  }

  lemma StrandedNext(w: World, s: Step, uuid: string, id: string)
    requires Stranded(w, uuid, id) && uuid in w.h.announced && (s.Save? ==> s.id != id)
    ensures Stranded(Next(w, s), uuid, id) && uuid in Next(w, s).h.announced
  {
    match s
    case Save(_, _, _, _) =>
    case Cleanup(_, _) =>
    case SettleNack(_, _, _, _) =>
    case SettleAck(_, _) =>
    case Mark(_, _) =>
    case _ =>
  }

  /** Unless the same event is received and saved again, such a message is never acked: every delivery
      fails to load the event and is nacked, so the queue need not drain. */
  lemma {:induction false} StrandedForever(w: World, steps: seq<Step>, uuid: string, id: string)
    requires Stranded(w, uuid, id) && uuid in w.h.announced
    requires forall i :: 0 <= i < |steps| && steps[i].Save? ==> steps[i].id != id
    ensures Stranded(Run(w, steps), uuid, id) && uuid in Run(w, steps).h.announced
  {
    if steps != [] {
      StrandedForever(w, steps[..|steps| - 1], uuid, id);
      StrandedNext(Run(w, steps[..|steps| - 1]), steps[|steps| - 1], uuid, id);
    }
  }

  /** The step takes the event from under a queued message. */
  ghost predicate Strands(w: World, s: Step, uuid: string, id: string) {
    && uuid in w.db.pubsub && w.db.pubsub[uuid].payload == id && id in w.db.events
    && uuid in Next(w, s).db.pubsub && id !in Next(w, s).db.events
  }

  /** Exactly the committed clean-ups do that whose cutoff is past the event's latest marking, whyever the
      message is still queued: its ack was rolled back, the marking was reported as an error, it is backed
      off, or it is a second message for the event. */
  lemma StrandsIff(w: World, s: Step, uuid: string, id: string)
    requires Reachable(w) && uuid in w.db.pubsub && w.db.pubsub[uuid].payload == id && id in w.db.events
    ensures Strands(w, s, uuid, id) <==>
              && s.Cleanup? && !s.outcome.RolledBack? && id in w.h.marked && w.db.events[id].processedAt.Some?
              && Clock.Unix(w.h.marked[id]) < Clock.Unix(w.now - s.ago - 3_600_000_000_000)
  {
    ReachableInv(w);
  }

  /** The step stores the event (again). */
  ghost predicate Stores(w: World, s: Step, id: string) {
    id !in w.db.events && id in Next(w, s).db.events
  }

  /** In the run so far step i stranded the message, and the event has not been stored since. */
  ghost predicate StrandedAt(start: World, steps: seq<Step>, i: nat, uuid: string, id: string) {
    && i < |steps| && Strands(Run(start, steps[..i]), steps[i], uuid, id)
    && forall j :: i < j < |steps| ==> !Stores(Run(start, steps[..j]), steps[j], id)
  }

  lemma StrandedAtLonger(start: World, steps: seq<Step>, i: nat, uuid: string, id: string)
    requires steps != []
    ensures var before := steps[..|steps| - 1];
            StrandedAt(start, steps, i, uuid, id) <==>
            if i == |before| then Strands(Run(start, before), steps[i], uuid, id)
            else StrandedAt(start, before, i, uuid, id) && !Stores(Run(start, before), steps[|before|], id)
  {
    var n := |steps| - 1;
    var before := steps[..n];
    assert forall j :: 0 <= j <= n ==> steps[..j] == before[..j];
    assert forall j :: 0 <= j < n ==> steps[j] == before[j];
    assert before[..n] == before;
  }

  lemma MessageStep(w: World, s: Step, uuid: string, id: string)
    requires uuid in Next(w, s).db.pubsub && Next(w, s).db.pubsub[uuid].payload == id
    requires id !in Next(w, s).db.events
    ensures uuid in w.db.pubsub && w.db.pubsub[uuid].payload == id && (id in w.db.events ==> Strands(w, s, uuid, id))
    ensures !Stores(w, s, id)
  {
  }

  /** Over every run: a queued message is without its event iff some such clean-up took it and the event has
      not been stored since. */
  lemma {:induction false} StrandedByCleanup(now: int, steps: seq<Step>, uuid: string)
    requires uuid in Run(Start(now), steps).db.pubsub
    ensures var w := Run(Start(now), steps);
            var id := w.db.pubsub[uuid].payload;
            id !in w.db.events <==> exists i :: StrandedAt(Start(now), steps, i, uuid, id)
  {
    var w := Run(Start(now), steps);
    var id := w.db.pubsub[uuid].payload;
    if steps == [] {
      return;
    }
    var n := |steps| - 1;
    var before := steps[..n];
    var w0 := Run(Start(now), before);
    InvInitially(now);
    InvRun(Start(now), before);
    if id !in w.db.events {
      MessageStep(w0, steps[n], uuid, id);
      if id in w0.db.events {
        StrandedAtLonger(Start(now), steps, n, uuid, id);
      } else {
        StrandedByCleanup(now, before, uuid);
        var i :| StrandedAt(Start(now), before, i, uuid, id);
        StrandedAtLonger(Start(now), steps, i, uuid, id);
      }
    }
    if i :| StrandedAt(Start(now), steps, i, uuid, id) {
      StrandedAtLonger(Start(now), steps, i, uuid, id);
      GoneSince(Start(now), steps, i, uuid, id);
    }
  }

  lemma {:induction false} GoneSince(start: World, steps: seq<Step>, i: nat, uuid: string, id: string)
    requires StrandedAt(start, steps, i, uuid, id)
    ensures id !in Run(start, steps).db.events
  {
    StrandedAtLonger(start, steps, i, uuid, id);
    var n := |steps| - 1;
    if i < n {
      GoneSince(start, steps[..n], i, uuid, id);
    }
  }

  lemma RunOne(w: World, steps: seq<Step>, s: Step)
    ensures Run(w, steps + [s]) == Next(Run(w, steps), s)
  {
    assert (steps + [s])[..|steps|] == steps;
  }

  lemma After(w: World, steps: seq<Step>, now: int, s: Step) returns (w': World, steps': seq<Step>)
    requires w == Run(Start(now), steps)
    ensures w' == Next(w, s) && w' == Run(Start(now), steps')
  {
    RunOne(Start(now), steps, s);
    return Next(w, s), steps + [s];
  }

  /** The only event, unprocessed, with its message in the hands of delivery 0. */
  ghost predicate InHand(w: World, now: int, id: string, uuid: string, phase: Phase) {
    && w.now == now && w.deliveries == map[0 := Delivery(uuid, id, phase)]
    && w.db.events == map[id := EventRow(None)]
    && uuid in w.db.pubsub && w.db.pubsub[uuid].payload == id && uuid in w.h.announced
  }

  lemma SavedAndRead(now: int, id: string, uuid: string) returns (w: World, steps: seq<Step>)
    ensures w == Run(Start(now), steps) && InHand(w, now, id, uuid, Received)
  {
    w, steps := After(Start(now), [], now, Save(id, uuid, true, Committed));
    assert w.deliveries == map[];
    w, steps := After(w, steps, now, Read(0, uuid));
  }

  lemma HandlerGoesOn(now: int, id: string, uuid: string) returns (w: World, steps: seq<Step>)
    ensures w == Run(Start(now), steps) && InHand(w, now, id, uuid, Published)
  {
    w, steps := SavedAndRead(now, id, uuid);
    w, steps := After(w, steps, now, Load(0, true));
    assert InHand(w, now, id, uuid, Loaded);
    w, steps := After(w, steps, now, SaveContacts(0, Committed));
    assert InHand(w, now, id, uuid, ContactsSaved);
    w, steps := After(w, steps, now, PublishExternally(0, true));
  }

  lemma SentAndMarked(now: int, id: string, uuid: string) returns (w: World, steps: seq<Step>)
    ensures w == Run(Start(now), steps) && w.now == now && id in w.h.completed
    ensures w.deliveries == map[0 := Delivery(uuid, id, Handled(true))]
    ensures w.db.events == map[id := EventRow(Some(Clock.Unix(now)))]
    ensures uuid in w.h.announced && uuid in w.db.pubsub && w.db.pubsub[uuid].payload == id
  {
    w, steps := HandlerGoesOn(now, id, uuid);
    w, steps := After(w, steps, now, SendToRelay(0, true));
    assert InHand(w, now, id, uuid, Sent) && id in w.h.completed;
    w, steps := After(w, steps, now, Mark(0, Committed));
  }

  /** How a message gets there: its ack is rolled back, and two hours later the event is cleaned up. */
  lemma AckLostThenCleanedUp(now: int, id: string, uuid: string) returns (w: World, steps: seq<Step>)
    ensures w == Run(Start(now), steps)
    ensures Stranded(w, uuid, id) && uuid in w.h.announced && id in w.h.completed
  {
    w, steps := SentAndMarked(now, id, uuid);
    w, steps := After(w, steps, now, SettleAck(0, RolledBack));
    assert w.deliveries == map[];
    w, steps := After(w, steps, now, Tick(2 * Clock.HOUR));
    w, steps := After(w, steps, now, Cleanup(0, Committed));
  }
}
