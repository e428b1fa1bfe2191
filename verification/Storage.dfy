/** The database as an object: statements change its tables in place, a rollback puts them back. */
module Storage {
  import opened Wrappers
  import opened Tables
  import opened Pipeline
  import Clock

  class Database {
    var events: map<string, EventRow>
    var pubsub: map<string, Message>

    function Value(): DB
      reads this
    {
      DB(events, pubsub)
    }

    constructor ()
      ensures Value() == DB(map[], map[])
    {
      events, pubsub := map[], map[];
    }

    method Exists(id: string) returns (r: bool)
      ensures r <==> id in events
    {
      r := id in events;
    }

    method Save(id: string)
      modifies this
      ensures Value() == SaveEvent(old(Value()), id)
      ensures events.Keys == old(events).Keys + {id} && forall i :: i in old(events) ==> events[i] == old(events)[i]
    {
      if id !in events {
        events := events[id := EventRow(None)];
      }
    }

    method Mark(id: string, now: int)
      modifies this
      ensures Value() == MarkAsProcessed(old(Value()), id, now)
    {
      if id in events {
        events := events[id := EventRow(Some(Clock.Unix(now)))];
      }
    }

    /** Rows are looked at one by one, in any order; the result is the number of rows deleted. */
    method DeleteProcessed(before: int) returns (deleted: nat)
      modifies this
      ensures Value() == DeleteProcessedEventsBefore(old(Value()), before)
      ensures deleted == |old(events)| - |events|
    {
      var todo := events.Keys;
      deleted := 0;
      while todo != {}
        invariant todo <= events.Keys && pubsub == old(pubsub) && |events| + deleted == |old(events)|
        invariant forall id :: id in events <==> id in old(events) && (id in todo || !IsOld(old(events)[id], before))
        invariant forall id :: id in events ==> events[id] == old(events)[id]
        decreases |todo|
      {
        var id :| id in todo;
        todo := todo - {id};
        if events[id].processedAt.Some? && events[id].processedAt.value < Clock.Unix(before) {
          assert (events - {id}).Keys == events.Keys - {id};
          events := events - {id};
          deleted := deleted + 1;
        }
      }
      assert events == DeleteProcessedEventsBefore(old(Value()), before).events;
    }

    method PublishTx(topic: string, uuid: string, payload: string, now: int) returns (ok: bool)
      modifies this
      ensures var r := Publish(old(Value()), topic, uuid, payload, now);
              (ok <==> r.Ok?) && Value() == if ok then r.value else old(Value())
    {
      if uuid in pubsub {
        return false;
      }
      pubsub := pubsub[uuid := Message(topic, payload, Clock.Unix(now), 0, None)];
      return true;
    }

    /** One of the messages that are due, whichever. */
    method ReadMsg(topic: string, now: int) returns (r: Option<string>)
      ensures r.Some? ==> r.value in pubsub && Readable(pubsub[r.value], topic, now)
      ensures r.Some? ==> pubsub[r.value].topic == topic
      ensures r.None? ==> forall uuid :: uuid in pubsub ==> !Readable(pubsub[uuid], topic, now)
      ensures r.None? ==> forall uuid :: uuid in pubsub && pubsub[uuid].topic == topic ==>
                pubsub[uuid].backoffUntil.Some? && pubsub[uuid].backoffUntil.value > Clock.Unix(now)
    {
      var due := set uuid | uuid in pubsub && Readable(pubsub[uuid], topic, now);
      if due == {} {
        assert forall uuid :: uuid in pubsub && Readable(pubsub[uuid], topic, now) ==> uuid in due;
        return None;
      }
      var uuid :| uuid in due;
      return Some(uuid);
    }

    method DeleteMessage(uuid: string)
      modifies this
      ensures Value() == Ack(old(Value()), uuid)
    {
      pubsub := pubsub - {uuid};
    }

    method BackOff(uuid: string, now: int, backoff: int)
      requires uuid in pubsub
      modifies this
      ensures Value() == Nack(old(Value()), uuid, now, backoff).value
    {
      var m := pubsub[uuid];
      pubsub := pubsub[uuid := m.(nackCount := m.nackCount + 1, backoffUntil := Some(Clock.Unix(now + backoff)))];
    }

    /** The end of a transaction that began in state `before`: a failed body is rolled back; otherwise
        `fate` says how the commit went and what the caller was told. */
    method Finish(before: DB, bodyOk: bool, fate: Outcome) returns (outcome: Outcome)
      modifies this
      ensures outcome == if bodyOk then fate else RolledBack
      ensures Value() == if outcome.RolledBack? then before else old(Value())
    {
      outcome := if bodyOk then fate else RolledBack;
      if outcome.RolledBack? {
        events, pubsub := before.events, before.pubsub;
      }
    }
  }
}
