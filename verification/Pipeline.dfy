/** From the save handler to the process handler, whatever commits, rolls back, crashes or is cleaned up. */
module Pipeline {
  import opened Wrappers
  import opened Tables
  import Clock
  import Backoff

  const EVENT_SAVED_TOPIC: string := "event_saved"
  const PROCESSED_EVENT_RETENTION_PERIOD: int := 1 * Clock.HOUR

  /** How TryRun ends: the caller's context may end after the commit, which is then reported as an error. */
  datatype Outcome = Committed | RolledBack | CommittedButError

  /** How far the process handler got with a delivered message. */
  datatype Phase = Received | Loaded | ContactsSaved | Published | Sent | Handled(ok: bool)

  datatype Delivery = Delivery(uuid: string, event: string, phase: Phase)

  /** What has happened, for stating properties: `accepted` ids whose save was committed; `completed` ids
      for which some run of the handler did everything before marking; `marked` the time of the latest
      marking; `announced` the topic and payload of every committed message; `acked` the uuids removed by
      an ack; `nacks` the committed nacks of each message; `until` the end of the latest backoff. */
  datatype History = History(accepted: set<string>, completed: set<string>, marked: map<string, int>,
                             announced: map<string, (string, string)>, acked: set<string>,
                             nacks: map<string, nat>, until: map<string, int>)

  datatype World = World(now: int, db: DB, deliveries: map<nat, Delivery>, h: History)

  function Start(now: int): World {
    World(now, DB(map[], map[]), map[], History({}, {}, map[], map[], {}, map[], map[]))
  }

  datatype Step =
    | Tick(elapsed: nat)
    | Save(id: string, uuid: string, wanted: bool, outcome: Outcome)
    | Read(d: nat, uuid: string)
    | Load(d: nat, ok: bool)
    | SaveContacts(d: nat, outcome: Outcome)
    | PublishExternally(d: nat, ok: bool)
    | SendToRelay(d: nat, ok: bool)
    | Mark(d: nat, outcome: Outcome)
    | SettleAck(d: nat, outcome: Outcome)
    | SettleNack(d: nat, outcome: Outcome, saturates: bool, draw: Backoff.Draw)
    | Abandon(d: nat)
    | Crash
    | Cleanup(ago: nat, outcome: Outcome)

  function AfterSave(w: World, id: string, uuid: string): World {
    var saved := SaveEvent(w.db, id);
    var r := Publish(saved, EVENT_SAVED_TOPIC, uuid, id, w.now);
    if r.Err? then w
    else
      w.(db := r.value,
         h := w.h.(accepted := w.h.accepted + {id}, announced := w.h.announced[uuid := (EVENT_SAVED_TOPIC, id)],
                   nacks := w.h.nacks[uuid := 0]))
  }

  function WithPhase(w: World, d: nat, phase: Phase): World
    requires d in w.deliveries
  {
    w.(deliveries := w.deliveries[d := w.deliveries[d].(phase := phase)])
  }

  predicate IsAt(w: World, d: nat, phase: Phase) {
    d in w.deliveries && w.deliveries[d].phase == phase
  }

  function AfterMark(w: World, id: string): World {
    if id in w.db.events then
      w.(db := MarkAsProcessed(w.db, id, w.now), h := w.h.(marked := w.h.marked[id := w.now]))
    else w
  }

  /** The transaction of nack: without the row it fails and rolls back. */
  function AfterNack(w: World, uuid: string, saturates: bool, draw: Backoff.Draw): World {
    if uuid !in w.db.pubsub then w
    else
      var backoff := Backoff.MessageErrorBackoff(w.db.pubsub[uuid].nackCount + 1, saturates, draw);
      w.(db := Nack(w.db, uuid, w.now, backoff).value,
         h := w.h.(nacks := w.h.nacks[uuid := w.db.pubsub[uuid].nackCount + 1],
                   until := w.h.until[uuid := w.now + backoff]))
  }

  function AfterAck(w: World, uuid: string): World {
    w.(db := Ack(w.db, uuid), h := if uuid in w.db.pubsub then w.h.(acked := w.h.acked + {uuid}) else w.h)
  }

  function Dropped(w: World, d: nat): World {
    w.(deliveries := w.deliveries - {d})
  }

  /** Steps whose guard does not hold leave the state as it is. New messages have uuids never used before. */
  function Next(w: World, s: Step): World {
    match s
    case Tick(elapsed) => w.(now := w.now + elapsed)
    case Save(id, uuid, wanted, outcome) =>
      if uuid in w.h.announced || id in w.db.events || !wanted || outcome.RolledBack? then w
      else AfterSave(w, id, uuid)
    case Read(d, uuid) =>
      if d !in w.deliveries && uuid in w.db.pubsub && Readable(w.db.pubsub[uuid], EVENT_SAVED_TOPIC, w.now) then
        w.(deliveries := w.deliveries[d := Delivery(uuid, w.db.pubsub[uuid].payload, Received)])
      else w
    case Load(d, ok) =>
      if IsAt(w, d, Received) then
        WithPhase(w, d, if ok && w.deliveries[d].event in w.db.events then Loaded else Handled(false))
      else w
    case SaveContacts(d, outcome) =>
      if IsAt(w, d, Loaded) then WithPhase(w, d, if outcome.Committed? then ContactsSaved else Handled(false)) else w
    case PublishExternally(d, ok) =>
      if IsAt(w, d, ContactsSaved) then WithPhase(w, d, if ok then Published else Handled(false)) else w
    case SendToRelay(d, ok) =>
      if IsAt(w, d, Published) then
        var w' := WithPhase(w, d, if ok then Sent else Handled(false));
        if ok then w'.(h := w.h.(completed := w.h.completed + {w.deliveries[d].event})) else w'
      else w
    case Mark(d, outcome) =>
      if IsAt(w, d, Sent) then
        var w' := if outcome.RolledBack? then w else AfterMark(w, w.deliveries[d].event);
        WithPhase(w', d, Handled(outcome.Committed?))
      else w
    case SettleAck(d, outcome) =>
      if IsAt(w, d, Handled(true)) then
        Dropped(if outcome.RolledBack? then w else AfterAck(w, w.deliveries[d].uuid), d)
      else w
    case SettleNack(d, outcome, saturates, draw) =>
      if IsAt(w, d, Handled(false)) then
        Dropped(if outcome.RolledBack? then w else AfterNack(w, w.deliveries[d].uuid, saturates, draw), d)
      else w
    case Abandon(d) => Dropped(w, d)
    case Crash => w.(deliveries := map[])
    case Cleanup(ago, outcome) =>
      if outcome.RolledBack? then w
      else w.(db := DeleteProcessedEventsBefore(w.db, w.now - ago - PROCESSED_EVENT_RETENTION_PERIOD))
  }

  function Run(w: World, steps: seq<Step>): World {
    if steps == [] then w else Next(Run(w, steps[..|steps| - 1]), steps[|steps| - 1])
  }

  lemma {:induction false} RunAppend(w: World, s: seq<Step>, t: seq<Step>)
    ensures Run(w, s + t) == Run(Run(w, s), t)
  {
    if t == [] {
      assert s + t == s;
    } else {
      assert (s + t)[..|s + t| - 1] == s + t[..|t| - 1];
      RunAppend(w, s, t[..|t| - 1]);
    }
  }

  ghost predicate Leads(w: World, w': World) {
    exists steps :: w' == Run(w, steps)
  }

  lemma LeadsSame(w: World)
    ensures Leads(w, w)
  {
    assert w == Run(w, []);
  }

  lemma LeadsOn(w: World, at: World, s: Step)
    requires Leads(w, at)
    ensures Leads(w, Next(at, s))
  {
    var steps :| at == Run(w, steps);
    assert (steps + [s])[..|steps|] == steps;
    assert Next(at, s) == Run(w, steps + [s]);
  }

  lemma LeadsJoin(a: World, b: World, c: World)
    requires Leads(a, b) && Leads(b, c)
    ensures Leads(a, c)
  {
    var s :| b == Run(a, s);
    var t :| c == Run(b, t);
    RunAppend(a, s, t);
  }

  // ---------------------------------------------------------------- the invariant

  /** A queued message for the event that no finished delivery is about to remove. */
  ghost predicate Announces(w: World, uuid: string, id: string) {
    && uuid in w.db.pubsub && w.db.pubsub[uuid].topic == EVENT_SAVED_TOPIC && w.db.pubsub[uuid].payload == id
    && forall d :: d in w.deliveries && w.deliveries[d].uuid == uuid ==> w.deliveries[d].phase != Handled(true)
  }

  ghost predicate IsAnnounced(w: World, id: string) {
    exists uuid :: Announces(w, uuid, id)
  }

  ghost predicate Unprocessed(w: World, id: string) {
    id in w.db.events && w.db.events[id].processedAt.None?
  }

  ghost predicate NoneForgotten(w: World) {
    && (forall id :: Unprocessed(w, id) ==> IsAnnounced(w, id))
    && (forall id :: id in w.h.accepted ==> id in w.h.completed || Unprocessed(w, id))
  }

  /** Committed messages are the disjoint union of the queued and the acked ones; what they say, how often
      they were nacked and how long they are backed off is as recorded. */
  ghost predicate QueueConserved(w: World) {
    && w.h.announced.Keys == w.db.pubsub.Keys + w.h.acked
    && w.db.pubsub.Keys !! w.h.acked && w.h.nacks.Keys == w.h.announced.Keys
    && forall uuid :: uuid in w.db.pubsub ==>
         var m := w.db.pubsub[uuid];
         && (m.topic, m.payload) == w.h.announced[uuid]
         && m.nackCount == w.h.nacks[uuid]
         && m.backoffUntil == (if uuid in w.h.until then Some(Clock.Unix(w.h.until[uuid])) else None)
         && (uuid in w.h.until <==> m.nackCount > 0)
  }

  ghost predicate DeliveriesTrue(w: World) {
    forall d :: d in w.deliveries ==>
      && w.deliveries[d].uuid in w.h.announced && w.h.announced[w.deliveries[d].uuid].1 == w.deliveries[d].event
      && (w.deliveries[d].phase == Sent || w.deliveries[d].phase == Handled(true) ==>
          w.deliveries[d].event in w.h.completed)
  }

  /** A processed_at was set by the latest marking, after some run of the handler had done all the rest. */
  ghost predicate MarksTrue(w: World) {
    && (forall id :: id in w.db.events && w.db.events[id].processedAt.Some? ==>
          id in w.h.completed && id in w.h.marked && w.db.events[id].processedAt == Some(Clock.Unix(w.h.marked[id])))
    && (forall id :: id in w.h.marked ==> w.h.marked[id] <= w.now)
    && (forall uuid :: uuid in w.h.until ==> uuid in w.h.announced)
  }

  ghost predicate Inv(w: World) {
    NoneForgotten(w) && QueueConserved(w) && DeliveriesTrue(w) && MarksTrue(w)
  }

  lemma InvInitially(now: int)
    ensures Inv(Start(now))
  {
  }

  /** If rows, messages and finished deliveries only changed in harmless ways, nothing is forgotten. */
  lemma StillAnnounced(w: World, w': World)
    requires NoneForgotten(w)
    requires forall id :: Unprocessed(w', id) ==> Unprocessed(w, id) || IsAnnounced(w', id)
    requires forall uuid, id :: Announces(w, uuid, id) && Unprocessed(w', id) ==> Announces(w', uuid, id)
    requires forall id :: id in w'.h.accepted ==> id in w'.h.completed || Unprocessed(w', id)
    ensures NoneForgotten(w')
  {
    forall id | Unprocessed(w', id) && Unprocessed(w, id) ensures IsAnnounced(w', id) {
      assert IsAnnounced(w, id);
      var uuid :| Announces(w, uuid, id);
      assert Announces(w', uuid, id);
    }
  }

  lemma InvSave(w: World, id: string, uuid: string, wanted: bool, outcome: Outcome)
    requires Inv(w)
    ensures Inv(Next(w, Save(id, uuid, wanted, outcome)))
  {
    var w' := Next(w, Save(id, uuid, wanted, outcome));
    if w' != w {
      assert uuid !in w.db.pubsub && w' == AfterSave(w, id, uuid);
      assert Announces(w', uuid, id);
      forall v, i | Announces(w, v, i) ensures Announces(w', v, i) {
      }
      StillAnnounced(w, w');
    }
  }

  lemma InvRead(w: World, d: nat, uuid: string)
    requires Inv(w)
    ensures Inv(Next(w, Read(d, uuid)))
  {
    var w' := Next(w, Read(d, uuid));
    forall v, i | Announces(w, v, i) ensures Announces(w', v, i) {
    }
    StillAnnounced(w, w');
  }

  /** Any phase that is not a finished success may be entered freely. */
  lemma InvPhase(w: World, d: nat, phase: Phase)
    requires Inv(w) && d in w.deliveries && phase != Handled(true)
    requires phase == Sent ==> w.deliveries[d].event in w.h.completed
    ensures Inv(WithPhase(w, d, phase))
  {
    var w' := WithPhase(w, d, phase);
    forall v, i | Announces(w, v, i) ensures Announces(w', v, i) {
    }
    StillAnnounced(w, w');
  }

  lemma InvCompleted(w: World, id: string)
    requires Inv(w)
    ensures Inv(w.(h := w.h.(completed := w.h.completed + {id})))
  {
    var w' := w.(h := w.h.(completed := w.h.completed + {id}));
    forall v, i | Announces(w, v, i) ensures Announces(w', v, i) {
    }
    StillAnnounced(w, w');
  }

  lemma InvAfterMark(w: World, id: string)
    requires Inv(w) && id in w.h.completed
    ensures Inv(AfterMark(w, id)) && !Unprocessed(AfterMark(w, id), id)
  {
    var w' := AfterMark(w, id);
    forall v, i | Announces(w, v, i) ensures Announces(w', v, i) {
    }
    StillAnnounced(w, w');
  }

  /** A delivery may finish when its event is processed or gone: no unprocessed event relies on its message. */
  lemma InvFinish(w: World, d: nat)
    requires Inv(w) && IsAt(w, d, Sent) && !Unprocessed(w, w.deliveries[d].event)
    ensures Inv(WithPhase(w, d, Handled(true)))
  {
    var w' := WithPhase(w, d, Handled(true));
    forall v, i | Announces(w, v, i) && Unprocessed(w', i) ensures Announces(w', v, i) {
      assert v in w.h.announced;
    }
    StillAnnounced(w, w');
  }

  lemma InvMark(w: World, d: nat, outcome: Outcome)
    requires Inv(w)
    ensures Inv(Next(w, Mark(d, outcome)))
  {
    if IsAt(w, d, Sent) {
      var w' := if outcome.RolledBack? then w else AfterMark(w, w.deliveries[d].event);
      InvAfterMark(w, w.deliveries[d].event);
      assert w'.deliveries == w.deliveries;
      if outcome.Committed? {
        InvFinish(w', d);
      } else {
        InvPhase(w', d, Handled(false));
      }
    }
  }

  lemma InvDropped(w: World, gone: map<nat, Delivery>)
    requires Inv(w) && gone.Keys <= w.deliveries.Keys && forall d :: d in gone ==> gone[d] == w.deliveries[d]
    ensures Inv(w.(deliveries := gone))
  {
    var w' := w.(deliveries := gone);
    forall v, i | Announces(w, v, i) ensures Announces(w', v, i) {
    }
    StillAnnounced(w, w');
  }

  lemma InvAck(w: World, d: nat)
    requires Inv(w) && IsAt(w, d, Handled(true))
    ensures Inv(AfterAck(w, w.deliveries[d].uuid))
  {
    var w' := AfterAck(w, w.deliveries[d].uuid);
    forall v, i | Announces(w, v, i) ensures Announces(w', v, i) {
    }
    StillAnnounced(w, w');
  }

  lemma InvNack(w: World, uuid: string, saturates: bool, draw: Backoff.Draw)
    requires Inv(w)
    ensures Inv(AfterNack(w, uuid, saturates, draw))
  {
    var w' := AfterNack(w, uuid, saturates, draw);
    if uuid in w.db.pubsub {
      assert w'.db.pubsub.Keys == w.db.pubsub.Keys;
      forall v, i | Announces(w, v, i) ensures Announces(w', v, i) {
      }
      StillAnnounced(w, w');
    }
  }

  lemma InvCleanup(w: World, before: int)
    requires Inv(w)
    ensures Inv(w.(db := DeleteProcessedEventsBefore(w.db, before)))
  {
    var w' := w.(db := DeleteProcessedEventsBefore(w.db, before));
    forall v, i | Announces(w, v, i) ensures Announces(w', v, i) {
    }
    StillAnnounced(w, w');
  }

  lemma InvNext(w: World, s: Step)
    requires Inv(w)
    ensures Inv(Next(w, s))
  {
    match s
    case Tick(elapsed) =>
      var w' := w.(now := w.now + elapsed);
      forall v, i | Announces(w, v, i) ensures Announces(w', v, i) {
      }
      StillAnnounced(w, w');
    case Save(id, uuid, wanted, outcome) => InvSave(w, id, uuid, wanted, outcome);
    case Read(d, uuid) => InvRead(w, d, uuid);
    case Load(d, ok) => InvHandlerStep(w, s, d);
    case SaveContacts(d, outcome) => InvHandlerStep(w, s, d);
    case PublishExternally(d, ok) => InvHandlerStep(w, s, d);
    case SendToRelay(d, ok) => InvHandlerStep(w, s, d);
    case Mark(d, outcome) => InvMark(w, d, outcome);
    case SettleAck(d, outcome) =>
      if IsAt(w, d, Handled(true)) {
        InvAck(w, d);
        var w' := if outcome.RolledBack? then w else AfterAck(w, w.deliveries[d].uuid);
        InvDropped(w', w'.deliveries - {d});
      }
    case SettleNack(d, outcome, saturates, draw) =>
      if IsAt(w, d, Handled(false)) {
        InvNack(w, w.deliveries[d].uuid, saturates, draw);
        var w' := if outcome.RolledBack? then w else AfterNack(w, w.deliveries[d].uuid, saturates, draw);
        InvDropped(w', w'.deliveries - {d});
      }
    case Abandon(d) => InvDropped(w, w.deliveries - {d});
    case Crash => InvDropped(w, map[]);
    case Cleanup(ago, outcome) => InvCleanup(w, w.now - ago - PROCESSED_EVENT_RETENTION_PERIOD);
  }

  lemma InvHandlerStep(w: World, s: Step, d: nat)
    requires Inv(w)
    requires s.Load? || s.SaveContacts? || s.PublishExternally? || s.SendToRelay?
    requires s.d == d
    ensures Inv(Next(w, s))
  {
    if d in w.deliveries && Next(w, s) != w {
      var phase := Next(w, s).deliveries[d].phase;
      if phase == Sent {
        var id := w.deliveries[d].event;
        InvCompleted(w, id);
        InvPhase(w.(h := w.h.(completed := w.h.completed + {id})), d, phase);
      } else {
        InvPhase(w, d, phase);
      }
    }
  }

  lemma {:induction false} InvRun(w: World, steps: seq<Step>)
    requires Inv(w)
    ensures Inv(Run(w, steps))
  {
    if steps != [] {
      InvRun(w, steps[..|steps| - 1]);
      InvNext(Run(w, steps[..|steps| - 1]), steps[|steps| - 1]);
    }
  }

  lemma InvLeads(w: World, w': World)
    requires Inv(w) && Leads(w, w')
    ensures Inv(w')
  {
    var steps :| w' == Run(w, steps);
    InvRun(w, steps);
  }
}
