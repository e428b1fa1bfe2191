/** The `events` and `pubsub` tables and the statements that touch them. */
module Tables {
  import opened Wrappers
  import Clock

  /** A row of `events`; its key is the event's id. */
  datatype EventRow = EventRow(processedAt: Option<int>)

  /** A row of `pubsub`; its key is the uuid. The payload is the id of the event it announces. */
  datatype Message = Message(topic: string, payload: string, createdAt: int, nackCount: nat, backoffUntil: Option<int>)

  datatype DB = DB(events: map<string, EventRow>, pubsub: map<string, Message>)

  /** INSERT ... ON CONFLICT(event_id) DO UPDATE SET payload: an existing row keeps its processed_at. */
  function SaveEvent(db: DB, id: string): DB {
    if id in db.events then db else db.(events := db.events[id := EventRow(None)])
  }

  /** An UPDATE of a row that is not there changes nothing and is no error. */
  function MarkAsProcessed(db: DB, id: string, now: int): DB {
    if id in db.events then db.(events := db.events[id := EventRow(Some(Clock.Unix(now)))]) else db
  }

  predicate IsOld(row: EventRow, before: int) {
    row.processedAt.Some? && row.processedAt.value < Clock.Unix(before)
  }

  function DeleteProcessedEventsBefore(db: DB, before: int): DB {
    db.(events := map id | id in db.events && !IsOld(db.events[id], before) :: db.events[id])
  }

  /** The uuid is the primary key of `pubsub`. */
  function Publish(db: DB, topic: string, uuid: string, payload: string, now: int): Result<DB> {
    if uuid in db.pubsub then Err
    else Ok(db.(pubsub := db.pubsub[uuid := Message(topic, payload, Clock.Unix(now), 0, None)]))
  }

  predicate Readable(m: Message, topic: string, now: int) {
    m.topic == topic && (m.backoffUntil.None? || m.backoffUntil.value <= Clock.Unix(now))
  }

  function Ack(db: DB, uuid: string): DB {
    db.(pubsub := db.pubsub - {uuid})
  }

  /** Nacking a message that is gone is an error: there is no row to scan. */
  function Nack(db: DB, uuid: string, now: int, backoff: int): Result<DB> {
    if uuid !in db.pubsub then Err
    else
      var m := db.pubsub[uuid];
      Ok(db.(pubsub := db.pubsub[uuid :=
                                 m.(nackCount := m.nackCount + 1, backoffUntil := Some(Clock.Unix(now + backoff)))]))
  }
}
