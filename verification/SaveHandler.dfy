/** The handler of received events, with the duplicate filter in front of its transaction. */
module SaveHandler {
  import opened Wrappers
  import opened Tables
  import opened Pipeline
  import opened Storage
  import Clock
  import D = DuplicateFilter

  /** A received event and everything outside that decides what happens to it: the size and age filter, a
      collision in the Bloom filter, whether the row can be looked up, the lookups of shouldBeDownloaded
      (None: they failed), the signature check, whether the row can be written, the new message's uuid, the
      clock, and how the transaction ends. */
  datatype Received = Received(id: string, passes: bool, collides: bool, existsOk: bool, wanted: Option<bool>,
                               valid: bool,
                               saveOk: bool, uuid: string, now: int, add: D.AddCall, fate: Outcome)

  /** Set by the transaction's body: what it did to the tables, and whether it put the id into the filter. */
  datatype Body = Body(db: DB, ok: bool, added: bool)

  function SaveBody(db: DB, e: Received): Body {
    if !e.existsOk then Body(db, false, false)
    else if e.id in db.events then Body(db, true, true)
    else if e.wanted.None? then Body(db, false, false)
    else if !e.wanted.value then Body(db, true, false)
    else if !e.valid || !e.saveOk then Body(db, false, false)
    else
      var r := Publish(SaveEvent(db, e.id), EVENT_SAVED_TOPIC, e.uuid, e.id, e.now);
      Body(if r.Ok? then r.value else SaveEvent(db, e.id), r.Ok?, true)
  }

  function OutcomeOf(body: Body, fate: Outcome): Outcome {
    if body.ok then fate else RolledBack
  }

  datatype SaveResult = SaveResult(db: DB, filter: D.Filter, err: bool)

  /** The transaction for an event that reached it. */
  function Stored(db: DB, filter: D.Filter, interval: int, e: Received): SaveResult {
    var body := SaveBody(db, e);
    var outcome := OutcomeOf(body, e.fate);
    SaveResult(if outcome.RolledBack? then db else body.db,
            if body.added then D.Add(filter, interval, e.add.(id := e.id)) else filter,
            !outcome.Committed?)
  }

  function Handle(db: DB, filter: D.Filter, interval: int, e: Received): SaveResult {
    if !e.passes || D.Contains(filter, e.id) || e.collides then SaveResult(db, filter, false)
    else Stored(db, filter, interval, e)
  }

  class SaveReceivedEventHandler {
    const database: Database
    const duplicateFilter: D.EventFilter

    constructor (database: Database, duplicateFilter: D.EventFilter)
      ensures this.database == database && this.duplicateFilter == duplicateFilter
    {
      this.database, this.duplicateFilter := database, duplicateFilter;
    }

    method HandleEvent(e: Received) returns (err: bool)
      modifies database, duplicateFilter
      ensures var h := Handle(old(database.Value()), old(duplicateFilter.Value()), duplicateFilter.interval, e);
              database.Value() == h.db && duplicateFilter.Value() == h.filter && err == h.err
    {
      if !e.passes {
        return false;
      }
      var hit := duplicateFilter.ContainsId(e.id, e.collides);
      if hit {
        return false;
      }
      var before := database.Value();
      var ok := SaveInTransaction(e);
      var outcome := database.Finish(before, ok, e.fate);
      return !outcome.Committed?;
    }

    method SaveInTransaction(e: Received) returns (ok: bool)
      modifies database, duplicateFilter
      ensures var body := SaveBody(old(database.Value()), e);
              && database.Value() == body.db && ok == body.ok
              && duplicateFilter.Value() ==
                 if body.added then D.Add(old(duplicateFilter.Value()), duplicateFilter.interval, e.add.(id := e.id))
                 else old(duplicateFilter.Value())
    {
      if !e.existsOk {
        return false;
      }
      var stored := database.Exists(e.id);
      if stored {
        duplicateFilter.AddId(e.add.(id := e.id));
        return true;
      }
      if e.wanted.None? {
        return false;
      }
      if !e.wanted.value {
        return true;
      }
      if !e.valid || !e.saveOk {
        return false;
      }
      database.Save(e.id);
      duplicateFilter.AddId(e.add.(id := e.id));
      ok := database.PublishTx(EVENT_SAVED_TOPIC, e.uuid, e.id, e.now);
    }
  }

  // ---------------------------------------------------------------- the filter changes nothing, if

  /** Everything the filter holds is stored. */
  ghost predicate Sound(filter: D.Filter, db: DB) {
    forall id :: D.Contains(filter, id) ==> id in db.events
  }

  /** A new event that is wanted and valid is put into the filter, and then the transaction rolls back. */
  predicate LosesTrack(db: DB, e: Received) {
    && e.id !in db.events && e.existsOk && e.wanted == Some(true) && e.valid && e.saveOk
    && (e.uuid in db.pubsub || e.fate.RolledBack?)
  }

  /** A sound filter stays sound exactly when no such rollback happens. */
  lemma SoundnessKeptIff(db: DB, filter: D.Filter, interval: int, e: Received)
    requires Sound(filter, db)
    ensures var h := Handle(db, filter, interval, e);
            Sound(h.filter, h.db) <==> !e.passes || e.collides || !LosesTrack(db, e)
  {
    var h := Handle(db, filter, interval, e);
    if e.passes && !D.Contains(filter, e.id) && !e.collides && SaveBody(db, e).added {
      assert D.Contains(h.filter, e.id);
    }
  }

  // ---------------------------------------------------------------- what one event comes to

  /** The event gets past the size and age filter and the duplicate filter. */
  predicate Reaches(filter: D.Filter, e: Received) {
    e.passes && !e.collides && e.id !in filter.current && e.id !in filter.previous
  }

  /** It is not stored yet and everything says that it should be. */
  predicate IsNew(db: DB, e: Received) {
    e.existsOk && e.id !in db.events && e.wanted == Some(true) && e.valid && e.saveOk
  }

  /** Exactly when an event is stored with its message, exactly what the tables then are, and exactly when its id is
      in the filter afterwards. */
  lemma StoredIff(db: DB, filter: D.Filter, interval: int, e: Received)
    ensures var h := Handle(db, filter, interval, e);
            var stores := Reaches(filter, e) && IsNew(db, e) && e.uuid !in db.pubsub && !e.fate.RolledBack?;
            && h.db.events == (if stores then db.events[e.id := EventRow(None)] else db.events)
            && h.db.pubsub ==
                 (if stores then db.pubsub[e.uuid := Message("event_saved", e.id, Clock.Unix(e.now), 0, None)]
                  else db.pubsub)
            && (e.id in h.filter.current || e.id in h.filter.previous <==>
                e.id in filter.current || e.id in filter.previous ||
                (Reaches(filter, e) && ((e.existsOk && e.id in db.events) || IsNew(db, e))))
  {
  }

  /** Exactly when the caller is told of an error: a lookup or the signature check failed, the row or the message
      could not be written, or the end of the transaction was not reported as a commit. */
  lemma ErrorIff(db: DB, filter: D.Filter, interval: int, e: Received)
    ensures var unwanted := e.id in db.events || e.wanted == Some(false);
            Handle(db, filter, interval, e).err <==>
              && Reaches(filter, e)
              && (!e.existsOk || !e.fate.Committed?
                  || (!unwanted && (e.wanted.None? || !e.valid || !e.saveOk || e.uuid in db.pubsub)))
  {
  }

  /** So without an error the event was filtered out, is not wanted, or is stored. */
  lemma SuccessMeans(db: DB, filter: D.Filter, interval: int, e: Received)
    requires !Handle(db, filter, interval, e).err
    ensures !Reaches(filter, e) || e.wanted == Some(false) || e.id in Handle(db, filter, interval, e).db.events
  {
  }

  /** The handler as it would be without the filter. */
  function HandleWithoutFilter(db: DB, e: Received): DB {
    if !e.passes then db else Stored(db, D.Filter({}, {}, 0), 0, e).db
  }

  function HandleAll(db: DB, filter: D.Filter, interval: int, es: seq<Received>): SaveResult {
    if es == [] then SaveResult(db, filter, false)
    else
      var before := HandleAll(db, filter, interval, es[..|es| - 1]);
      Handle(before.db, before.filter, interval, es[|es| - 1])
  }

  function HandleAllWithoutFilter(db: DB, es: seq<Received>): DB {
    if es == [] then db else HandleWithoutFilter(HandleAllWithoutFilter(db, es[..|es| - 1]), es[|es| - 1])
  }

  /** No collision and no rollback that loses track, in a run without the filter. */
  ghost predicate Undisturbed(db: DB, es: seq<Received>) {
    forall i :: 0 <= i < |es| ==> !es[i].collides && !LosesTrack(HandleAllWithoutFilter(db, es[..i]), es[i])
  }

  /** Then the filter is only a shortcut: the tables end up the same, row for row and message for message. */
  lemma {:induction false} FilterIsOnlyAShortcut(db: DB, filter: D.Filter, interval: int, es: seq<Received>)
    requires Sound(filter, db) && Undisturbed(db, es)
    ensures var h := HandleAll(db, filter, interval, es);
            h.db == HandleAllWithoutFilter(db, es) && Sound(h.filter, h.db)
  {
    if es != [] {
      var before := es[..|es| - 1];
      assert forall i :: 0 <= i < |before| ==> before[..i] == es[..i];
      FilterIsOnlyAShortcut(db, filter, interval, before);
      var h := HandleAll(db, filter, interval, before);
      SoundnessKeptIff(h.db, h.filter, interval, es[|es| - 1]);
    }
  }

  /** Every stored event has exactly one message, and every message is about a stored event. */
  ghost predicate OneMessageEach(db: DB) {
    && (forall uuid :: uuid in db.pubsub ==> db.pubsub[uuid].payload in db.events)
    && (forall id :: id in db.events ==> exists uuid :: uuid in db.pubsub && db.pubsub[uuid].payload == id)
    && (forall u, v :: u in db.pubsub && v in db.pubsub && db.pubsub[u].payload == db.pubsub[v].payload ==> u == v)
  }

  lemma {:induction false} PublishedExactlyOnce(filter: D.Filter, interval: int, es: seq<Received>)
    ensures OneMessageEach(HandleAll(DB(map[], map[]), filter, interval, es).db)
  {
    if es != [] {
      PublishedExactlyOnce(filter, interval, es[..|es| - 1]);
      var before := HandleAll(DB(map[], map[]), filter, interval, es[..|es| - 1]);
      OneMoreMessage(before.db, before.filter, interval, es[|es| - 1]);
    }
  }

  lemma OneMoreMessage(db: DB, filter: D.Filter, interval: int, e: Received)
    requires OneMessageEach(db)
    ensures OneMessageEach(Handle(db, filter, interval, e).db)
  {
    var db' := Handle(db, filter, interval, e).db;
    if db' != db {
      assert db'.pubsub.Keys == db.pubsub.Keys + {e.uuid} && db'.pubsub[e.uuid].payload == e.id;
      forall id | id in db.events ensures exists uuid :: uuid in db'.pubsub && db'.pubsub[uuid].payload == id {
        var uuid :| uuid in db.pubsub && db.pubsub[uuid].payload == id;
        assert db'.pubsub[uuid].payload == id;
      }
    }
  }

  /** After such a rollback the same event, received again in good order, is dropped by the filter,
      while it would have been stored without it. */
  lemma RollbackThenDropped(e: Received, again: Received, interval: int)
    requires e.passes && !e.collides && e.existsOk && e.wanted == Some(true) && e.valid && e.saveOk &&
             e.fate == RolledBack
    requires again == e.(fate := Committed) && e.add.checked < interval
    ensures var empty := DB(map[], map[]);
            var f := D.Filter({}, {}, 0);
            && HandleAll(empty, f, interval, [e, again]).db == empty
            && e.id in HandleAllWithoutFilter(empty, [e, again]).events
  {
    var empty := DB(map[], map[]);
    var f := D.Filter({}, {}, 0);
    assert [e, again][..1] == [e] && [e][..0] == [];
    assert HandleAll(empty, f, interval, [e]) == Handle(empty, f, interval, e);
    assert HandleAllWithoutFilter(empty, [e]) == HandleWithoutFilter(empty, e) == empty;
  }

  // ---------------------------------------------------------------- the handler in the pipeline

  /** What the handler does to the tables is what the pipeline's Save step does (or nothing at all). */
  lemma HandleIsASaveStep(w: World, filter: D.Filter, interval: int, e: Received)
    requires Inv(w) && e.now == w.now && e.uuid !in w.h.announced
    ensures var h := Handle(w.db, filter, interval, e);
            var step := Save(e.id, e.uuid, Reaches(filter, e) && e.existsOk && e.wanted == Some(true) && e.valid &&
                             e.saveOk, e.fate);
            Next(w, step).db == h.db && (h.db != w.db ==> e.id in Next(w, step).h.accepted)
  {
  }
}
