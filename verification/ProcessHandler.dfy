/** The process handler and the loop that feeds it with queued messages, as runs of the pipeline. */
module ProcessHandler {
  import opened Tables
  import opened Pipeline
  import opened Storage
  import Backoff
  import Clock

  /** What sending an event to the relay came to. NotSent: an event of a kind that is not sent. */
  datatype SendResult = NotSent | SentOk | EventReplaced | EventInvalid | OtherError

  predicate ShouldDisregard(r: SendResult) {
    r.EventReplaced? || r.EventInvalid?
  }

  /** Everything outside that decides how one run of the handler goes. */
  datatype Circumstances = Circumstances(loadOk: bool, contacts: Outcome, publishOk: bool, send: SendResult,
                                         mark: Outcome)

  /** The handler succeeds when it looks for the event in state `loaded`. */
  predicate Succeeds(c: Circumstances, id: string, loaded: World) {
    && c.loadOk && id in loaded.db.events && c.contacts.Committed? && c.publishOk
    && !c.send.OtherError? && c.mark.Committed?
  }

  // ---------------------------------------------------------------- the rest of the program

  /** The clock, the uuids handed out so far, and the other users of the database. */
  class Surroundings {
    const database: Database
    var now: int
    var used: set<string>

    ghost predicate Agrees(w: World)
      reads this, database
    {
      w.db == database.Value() && w.now == now && w.h.announced.Keys <= used
    }

    constructor (database: Database, now: int)
      requires database.Value() == DB(map[], map[])
      ensures this.database == database && Agrees(Start(now))
    {
      this.database, this.now, used := database, now, {};
    }

    method TimePasses(elapsed: nat, ghost w: World) returns (ghost w': World)
      requires Agrees(w)
      modifies this`now
      ensures Agrees(w') && Leads(w, w') && w'.deliveries == w.deliveries
    {
      LeadsSame(w);
      LeadsOn(w, w, Tick(elapsed));
      now := now + elapsed;
      w' := Next(w, Tick(elapsed));
    }

    /** The save handler's transaction for an event that got past the filters. */
    method EventIsSaved(id: string, uuid: string, fate: Outcome, ghost w: World) returns (ghost w': World)
      requires Agrees(w) && uuid !in used
      modifies this`used, database
      ensures Agrees(w') && Leads(w, w') && w'.deliveries == w.deliveries
    {
      ghost var s := Step.Save(id, uuid, true, fate);
      LeadsSame(w);
      LeadsOn(w, w, s);
      w' := Next(w, s);
      used := used + {uuid};
      var stored := database.Exists(id);
      if !stored {
        var before := database.Value();
        database.Save(id);
        var ok := database.PublishTx(EVENT_SAVED_TOPIC, uuid, id, now);
        var outcome := database.Finish(before, ok, fate);
      }
    }

    method EventsAreCleanedUp(cutoffTime: int, fate: Outcome, ghost w: World) returns (deleted: nat, ghost w': World)
      requires Agrees(w) && cutoffTime <= now - PROCESSED_EVENT_RETENTION_PERIOD
      modifies database
      ensures Agrees(w') && Leads(w, w') && w'.deliveries == w.deliveries
      ensures w' == Next(w, Cleanup(now - PROCESSED_EVENT_RETENTION_PERIOD - cutoffTime, fate))
      ensures !fate.RolledBack? ==> deleted == |w.db.events| - |w'.db.events|
    {
      ghost var s := Cleanup(now - PROCESSED_EVENT_RETENTION_PERIOD - cutoffTime, fate);
      LeadsSame(w);
      LeadsOn(w, w, s);
      w' := Next(w, s);
      var before := database.Value();
      deleted := database.DeleteProcessed(cutoffTime);
      var outcome := database.Finish(before, true, fate);
    }

    method SomethingHappens(ghost w: World) returns (ghost w': World)
      requires Agrees(w)
      modifies this, database
      ensures Agrees(w') && Leads(w, w') && w'.deliveries == w.deliveries
    {
      var what: nat, n: nat, yes: bool, other: bool := *, *, *, *;
      var id: string, uuid: string := *, *;
      var fate := if yes then Committed else if other then RolledBack else CommittedButError;
      if what == 0 {
        w' := TimePasses(n, w);
      } else if what == 1 && uuid !in used {
        w' := EventIsSaved(id, uuid, fate, w);
      } else if what == 2 {
        var deleted;
        deleted, w' := EventsAreCleanedUp(now - PROCESSED_EVENT_RETENTION_PERIOD - n, fate, w);
      } else {
        LeadsSame(w);
        w' := w;
      }
    }

    /** Any amount of time passes, and any number of events are saved and cleaned up. */
    method Others(ghost w: World) returns (ghost w': World)
      requires Agrees(w)
      modifies this, database
      ensures Agrees(w') && Leads(w, w') && w'.deliveries == w.deliveries
    {
      var rounds: int := *;
      w' := w;
      LeadsSame(w);
      while rounds > 0
        invariant Agrees(w') && Leads(w, w') && w'.deliveries == w.deliveries
      {
        rounds := rounds - 1;
        ghost var q := w';
        w' := SomethingHappens(q);
        LeadsJoin(w, q, w');
      }
    }
  }

  // ---------------------------------------------------------------- handling

  /** The one delivery under way is in this phase. */
  ghost predicate InHand(w: World, uuid: string, id: string, phase: Phase) {
    w.deliveries == map[0 := Delivery(uuid, id, phase)]
  }

  /** The phase a step of the handler starts from, and the one it ends in. */
  function PhaseBefore(s: Step): Phase {
    match s
    case Load(_, _) => Phase.Received
    case SaveContacts(_, _) => Loaded
    case PublishExternally(_, _) => ContactsSaved
    case _ => Published
  }

  function PhaseAfter(s: Step, stored: bool): Phase {
    match s
    case Load(_, ok) => if ok && stored then Loaded else Phase.Handled(false)
    case SaveContacts(_, outcome) => if outcome.Committed? then ContactsSaved else Phase.Handled(false)
    case PublishExternally(_, ok) => if ok then Published else Phase.Handled(false)
    case SendToRelay(_, ok) => if ok then Sent else Phase.Handled(false)
    case _ => Phase.Handled(false)
  }

  predicate IsHandlerStep(s: Step) {
    (s.Load? || s.SaveContacts? || s.PublishExternally? || s.SendToRelay?) && s.d == 0
  }

  lemma HandlerStep(w: World, at: World, s: Step, uuid: string, id: string) returns (at': World)
    requires Leads(w, at) && IsHandlerStep(s) && InHand(at, uuid, id, PhaseBefore(s))
    ensures at' == Next(at, s) && Leads(w, at') && InHand(at', uuid, id, PhaseAfter(s, id in at.db.events))
    ensures at'.db == at.db && at'.now == at.now && at'.h.announced == at.h.announced
  {
    LeadsOn(w, at, s);
    at' := Next(at, s);
  }

  lemma MarkStep(w: World, at: World, fate: Outcome, uuid: string, id: string) returns (at': World)
    requires Leads(w, at) && InHand(at, uuid, id, Sent)
    ensures Leads(w, at') && InHand(at', uuid, id, Phase.Handled(fate.Committed?))
    ensures at'.db == (if fate.RolledBack? then at.db else MarkAsProcessed(at.db, id, at.now))
    ensures at'.now == at.now && at'.h.announced == at.h.announced
  {
    LeadsOn(w, at, Step.Mark(0, fate));
    at' := Next(at, Step.Mark(0, fate));
  }

  lemma SettledStep(w: World, at: World, err: bool, t: Turn, uuid: string, id: string) returns (at': World)
    requires Leads(w, at) && InHand(at, uuid, id, Phase.Handled(!err))
    ensures at' == Next(at, SettleStep(err, t)) && Leads(w, at') && at'.deliveries == map[]
    ensures at'.now == at.now && at'.h.announced == at.h.announced
  {
    LeadsOn(w, at, SettleStep(err, t));
    at' := Next(at, SettleStep(err, t));
  }

  class ProcessSavedEventHandler {
    const database: Database
    const surroundings: Surroundings

    constructor (surroundings: Surroundings)
      ensures this.database == surroundings.database && this.surroundings == surroundings
    {
      this.database, this.surroundings := surroundings.database, surroundings;
    }

    /** A step of the handler that does not write, after whatever others did. */
    method Advance(ghost s: Step, ghost w: World, ghost at: World, ghost uuid: string, ghost id: string)
      returns (ghost at': World)
      requires surroundings.database == database && surroundings.Agrees(at) && Leads(w, at)
      requires IsHandlerStep(s) && !s.Load? && InHand(at, uuid, id, PhaseBefore(s))
      modifies surroundings, database
      ensures surroundings.Agrees(at') && Leads(w, at') && InHand(at', uuid, id, PhaseAfter(s, true))
    {
      ghost var q := surroundings.Others(at);
      LeadsJoin(w, at, q);
      at' := HandlerStep(w, q, s, uuid, id);
    }

    /** Every way through the handler ends a delivery as a success or a failure, and is a run of the pipeline,
        whatever others do between its steps; `loaded` is the moment at which it looked for the event. */
    method Handle(id: string, c: Circumstances, ghost w: World, ghost uuid: string)
      returns (err: bool, ghost loaded: World, ghost at: World)
      requires surroundings.database == database && surroundings.Agrees(w) && InHand(w, uuid, id, Received)
      modifies surroundings, database
      ensures surroundings.Agrees(at) && Leads(w, loaded) && Leads(w, at) && InHand(at, uuid, id, Phase.Handled(!err))
      ensures !err <==> Succeeds(c, id, loaded)
      ensures !err <==>
                && c.loadOk && id in loaded.db.events && c.contacts == Committed && c.publishOk
                && c.send != OtherError && c.mark == Committed
    {
      loaded := surroundings.Others(w);
      at := HandlerStep(w, loaded, Load(0, c.loadOk), uuid, id);
      var found := database.Exists(id);
      if !c.loadOk || !found {
        return true, loaded, at;
      }
      err, at := HandleLoaded(id, c, w, at, uuid);
    }

    method HandleLoaded(id: string, c: Circumstances, ghost w: World, ghost loaded: World, ghost uuid: string)
      returns (err: bool, ghost at: World)
      requires surroundings.database == database && surroundings.Agrees(loaded) && Leads(w, loaded)
      requires InHand(loaded, uuid, id, Loaded)
      modifies surroundings, database
      ensures surroundings.Agrees(at) && Leads(w, at) && InHand(at, uuid, id, Phase.Handled(!err))
      ensures !err <==> c.contacts.Committed? && c.publishOk && !c.send.OtherError? && c.mark.Committed?
    {
      at := Advance(SaveContacts(0, c.contacts), w, loaded, uuid, id);
      if !c.contacts.Committed? {
        return true, at;
      }
      at := Advance(PublishExternally(0, c.publishOk), w, at, uuid, id);
      if !c.publishOk {
        return true, at;
      }
      var sent := MaybeSendEventToRelay(c.send);
      at := Advance(SendToRelay(0, sent), w, at, uuid, id);
      if !sent {
        return true, at;
      }
      err, at := MarkProcessed(id, c.mark, w, at, uuid);
    }

    method MaybeSendEventToRelay(send: SendResult) returns (ok: bool)
      ensures ok <==> !send.OtherError?
    {
      if send.NotSent? || send.SentOk? {
        return true;
      }
      return ShouldDisregard(send);
    }

    method MarkProcessed(id: string, fate: Outcome, ghost w: World, ghost handled: World, ghost uuid: string)
      returns (err: bool, ghost at: World)
      requires surroundings.database == database && surroundings.Agrees(handled) && Leads(w, handled)
      requires InHand(handled, uuid, id, Sent)
      modifies surroundings, database
      ensures surroundings.Agrees(at) && Leads(w, at) && InHand(at, uuid, id, Phase.Handled(!err))
      ensures err <==> !fate.Committed?
    {
      ghost var q := surroundings.Others(handled);
      LeadsJoin(w, handled, q);
      at := MarkStep(w, q, fate, uuid, id);
      var outcome := MarkInTransaction(id, surroundings.now, fate);
      return !outcome.Committed?, at;
    }

    method MarkInTransaction(id: string, now: int, fate: Outcome) returns (outcome: Outcome)
      modifies database
      ensures outcome == fate
      ensures database.Value() == if fate.RolledBack? then old(database.Value())
              else MarkAsProcessed(old(database.Value()), id, now)
    {
      var before := database.Value();
      database.Mark(id, now);
      outcome := database.Finish(before, true, fate);
    }
  }

  datatype MessageState = Fresh | Acked | Nacked

  /** A delivered message; it is acked or nacked at most once. */
  class ReceivedMessage {
    const uuid: string
    const payload: string
    var state: MessageState

    constructor (uuid: string, payload: string)
      ensures this.uuid == uuid && this.payload == payload && state == Fresh
    {
      this.uuid, this.payload, state := uuid, payload, Fresh;
    }

    method Ack() returns (err: bool)
      modifies this
      ensures err <==> old(state) != Fresh
      ensures state == if err then old(state) else Acked
    {
      if state != Fresh {
        return true;
      }
      state := Acked;
      return false;
    }

    method Nack() returns (err: bool)
      modifies this
      ensures err <==> old(state) != Fresh
      ensures state == if err then old(state) else Nacked
    {
      if state != Fresh {
        return true;
      }
      state := Nacked;
      return false;
    }
  }

  /** One turn of the loop: whether the table can be read, where the context ends if it does, how handling and
      settling the message goes, and the randomness and float conversion of the backoff. */
  datatype Turn = Turn(readOk: bool, ends: Ending, c: Circumstances, settle: Outcome, saturates: bool,
                       draw: Backoff.Draw)

  datatype Ending = Never | BeforeHandling | BeforeSettling

  datatype TurnResult = NoMessage | ReadFailed | Delivered | Ended

  function SettleStep(err: bool, t: Turn): Step {
    if err then SettleNack(0, t.settle, t.saturates, t.draw) else SettleAck(0, t.settle)
  }

  ghost predicate NothingDue(w: World) {
    forall uuid :: uuid in w.db.pubsub ==> !Readable(w.db.pubsub[uuid], EVENT_SAVED_TOPIC, w.now)
  }

  /** From the moment it is read to the end of its delivery: handled, with this error, and then settled by it; or
      given up when the context ends. */
  ghost predicate IsDelivery(w: World, uuid: string, t: Turn, ended: bool, err: bool, loaded: World, last: World,
                             at: World) {
    && uuid in w.db.pubsub && Readable(w.db.pubsub[uuid], EVENT_SAVED_TOPIC, w.now)
    && Leads(Next(w, Read(0, uuid)), last) && at == Next(last, if ended then Abandon(0) else SettleStep(err, t))
    && (!ended ==>
          var id := w.db.pubsub[uuid].payload;
          && InHand(last, uuid, id, Phase.Handled(!err))
          && Leads(Next(w, Read(0, uuid)), loaded) && (!err <==> Succeeds(t.c, id, loaded)))
  }

  ghost predicate IsDeliveredFrom(w: World, t: Turn, ended: bool, at: World) {
    exists uuid: string, err: bool, loaded: World, last: World :: IsDelivery(w, uuid, t, ended, err, loaded, last, at)
  }

  /** One turn from w to at: what it finds when it looks decides its result. */
  ghost predicate IsTurn(t: Turn, result: TurnResult, w: World, looked: World, at: World) {
    && Leads(w, looked) && Leads(w, at)
    && match result
       case ReadFailed => !t.readOk && at == looked
       case NoMessage => t.readOk && at == looked && NothingDue(looked)
       case Delivered => t.readOk && t.ends.Never? && IsDeliveredFrom(looked, t, false, at)
       case Ended => t.readOk && !t.ends.Never? && IsDeliveredFrom(looked, t, true, at)
  }

  /** The state that the turns so far have led to. */
  ghost function LastOf(start: World, after: seq<World>): World {
    if after == [] then start else after[|after| - 1]
  }

  ghost predicate AreTurns(start: World, turns: seq<Turn>, results: seq<TurnResult>, looked: seq<World>,
                           after: seq<World>) {
    && |looked| == |after| == |results| <= |turns|
    && forall i :: 0 <= i < |results| ==>
      IsTurn(turns[i], results[i], LastOf(start, after[..i]), looked[i], after[i])
  }

  lemma OneMoreTurn(start: World, turns: seq<Turn>, results: seq<TurnResult>, looked: seq<World>, after: seq<World>,
                    result: TurnResult, moment: World, w: World)
    requires AreTurns(start, turns, results, looked, after) && |results| < |turns|
    requires IsTurn(turns[|results|], result, LastOf(start, after), moment, w)
    ensures AreTurns(start, turns, results + [result], looked + [moment], after + [w])
    ensures LastOf(start, after + [w]) == w
  {
    var n := |results|;
    assert (after + [w])[..n] == after;
    forall i | 0 <= i < n
      ensures IsTurn(turns[i], (results + [result])[i], LastOf(start, (after + [w])[..i]), (looked + [moment])[i],
                     (after + [w])[i])
    {
      assert (after + [w])[..i] == after[..i];
    }
  }

  /** How many turns found no message since the last delivery. */
  function EmptySinceDelivery(results: seq<TurnResult>): nat {
    if results == [] then 0
    else
      var before := EmptySinceDelivery(results[..|results| - 1]);
      match results[|results| - 1]
      case Delivered => 0
      case NoMessage => before + 1
      case _ => before
  }

  /** The pauses: the k-th empty turn since a delivery is followed by one of min(2^(k-1), 30) seconds, a
      failed read by one second. */
  function Pauses(results: seq<TurnResult>): seq<int> {
    if results == [] then []
    else
      var before := Pauses(results[..|results| - 1]);
      match results[|results| - 1]
      case NoMessage => before + [Backoff.Min(Backoff.Pow(2, EmptySinceDelivery(results) - 1), 30) * Clock.SECOND]
      case ReadFailed => before + [Clock.SECOND]
      case _ => before
  }

  /** The empty turns since the last delivery, which was turn q, or since the start, if q is -1. */
  ghost function EmptyAfter(results: seq<TurnResult>, q: int): set<int> {
    set i | 0 <= i < |results| && q < i && results[i].NoMessage?
  }

  lemma {:induction false} EmptyAreCounted(results: seq<TurnResult>, q: int)
    requires -1 <= q < |results| && (q >= 0 ==> results[q].Delivered?)
    requires forall i :: q < i < |results| ==> !results[i].Delivered?
    ensures EmptySinceDelivery(results) == |EmptyAfter(results, q)|
    decreases |results|
  {
    if results == [] {
      assert EmptyAfter(results, q) == {};
      return;
    }
    var n := |results| - 1;
    var before := results[..n];
    if q == n {
      assert EmptyAfter(results, q) == {};
    } else {
      EmptyAreCounted(before, q);
      assert EmptyAfter(results, q) == EmptyAfter(before, q) + if results[n].NoMessage? then {n} else {};
    }
  }

  /** Which pauses there are: one after each turn that found no message or could not read, the former growing with
      the number of such turns since the last delivery (turn q, or none if q is -1): 1, 2, 4, 8, 16 seconds and then
      30, the latter of one second. */
  lemma {:induction false} PausesAre(results: seq<TurnResult>, result: TurnResult, q: int)
    requires -1 <= q < |results| && (q >= 0 ==> results[q].Delivered?)
    requires forall i :: q < i < |results| ==> !results[i].Delivered?
    ensures var k := |EmptyAfter(results, q)|;
            Pauses(results + [result]) == Pauses(results) +
            match result
            case NoMessage => [if k < 5 then Backoff.Pow(2, k) * 1_000_000_000 else 30_000_000_000]
            case ReadFailed => [1_000_000_000]
            case _ => []
  {
    var more, n := results + [result], |results|;
    assert more[..n] == results;
    EmptyAreCounted(results, q);
    var k := |EmptyAfter(results, q)|;
    assert EmptySinceDelivery(results) == k;
    Backoff.PowersOfTwo();
    if k < 5 {
      Backoff.PowGrows(2, k, 4);
      assert Backoff.Pow(2, 4) == 16;
    } else {
      Backoff.PowGrows(2, 5, k);
    }
  }

  lemma OneMoreResult(results: seq<TurnResult>, result: TurnResult)
    ensures (results + [result])[..|results|] == results
  {
  }

  class Subscriber {
    const database: Database
    const surroundings: Surroundings
    const handler: ProcessSavedEventHandler

    constructor (handler: ProcessSavedEventHandler)
      ensures this.handler == handler && this.surroundings == handler.surroundings && this.database == handler.database
    {
      this.handler, this.surroundings, this.database := handler, handler.surroundings, handler.database;
    }

    ghost predicate Wired() {
      handler.database == database && handler.surroundings == surroundings && surroundings.database == database
    }

    /** Handles and settles a message just read, unless the context ends before; `last` is the moment at which
        that happens or the message is settled. */
    method DeliverOne(uuid: string, t: Turn, ghost w: World)
      returns (ended: bool, err: bool, ghost loaded: World, ghost last: World, ghost at: World)
      requires Wired() && surroundings.Agrees(w) && w.deliveries == map[]
      requires uuid in database.pubsub && Readable(database.pubsub[uuid], EVENT_SAVED_TOPIC, surroundings.now)
      modifies surroundings, database
      ensures surroundings.Agrees(at) && Leads(w, at) && at.deliveries == map[]
      ensures ended <==> !t.ends.Never?
      ensures IsDelivery(w, uuid, t, ended, err, loaded, last, at)
    {
      var msg := new ReceivedMessage(uuid, database.pubsub[uuid].payload);
      LeadsSame(w);
      LeadsOn(w, w, Read(0, uuid));
      last := Next(w, Read(0, uuid));
      if t.ends.BeforeHandling? {
        LeadsSame(last);
        LeadsOn(w, last, Abandon(0));
        return true, false, last, last, Next(last, Abandon(0));
      }
      ended, err, loaded, last, at := HandleAndSettle(msg, t, w, last);
    }

    method HandleAndSettle(msg: ReceivedMessage, t: Turn, ghost w: World, ghost received: World)
      returns (ended: bool, err: bool, ghost loaded: World, ghost last: World, ghost at: World)
      requires Wired() && surroundings.Agrees(received) && Leads(w, received) && msg.state == Fresh
      requires InHand(received, msg.uuid, msg.payload, Received)
      modifies surroundings, database, msg
      ensures surroundings.Agrees(at) && Leads(w, at) && at.deliveries == map[]
      ensures ended <==> t.ends.BeforeSettling?
      ensures Leads(received, loaded) && (!err <==> Succeeds(t.c, msg.payload, loaded))
      ensures Leads(received, last) && InHand(last, msg.uuid, msg.payload, Phase.Handled(!err))
      ensures at == Next(last, if ended then Abandon(0) else SettleStep(err, t))
    {
      err, loaded, last := handler.Handle(msg.payload, t.c, received, msg.uuid);
      LeadsJoin(w, received, last);
      if t.ends.BeforeSettling? {
        LeadsOn(w, last, Abandon(0));
        return true, err, loaded, last, Next(last, Abandon(0));
      }
      ghost var handled := last;
      last, at := SettleAmongOthers(msg, err, t, w, handled);
      LeadsJoin(received, handled, last);
      ended := false;
    }

    method SettleAmongOthers(msg: ReceivedMessage, err: bool, t: Turn, ghost w: World, ghost handled: World)
      returns (ghost last: World, ghost at: World)
      requires Wired() && surroundings.Agrees(handled) && Leads(w, handled) && msg.state == Fresh
      requires InHand(handled, msg.uuid, msg.payload, Phase.Handled(!err))
      modifies surroundings, database, msg
      ensures surroundings.Agrees(at) && Leads(w, at) && at.deliveries == map[]
      ensures Leads(handled, last) && InHand(last, msg.uuid, msg.payload, Phase.Handled(!err))
      ensures at == Next(last, SettleStep(err, t))
    {
      last := surroundings.Others(handled);
      LeadsJoin(w, handled, last);
      Settle(msg, err, surroundings.now, t, last);
      at := SettledStep(w, last, err, t, msg.uuid, msg.payload);
    }

    /** The port's answer to the message, and what the queue does with it. */
    method Settle(msg: ReceivedMessage, err: bool, now: int, t: Turn, ghost w: World)
      requires w.db == database.Value() && w.now == now && msg.state == Fresh
      requires InHand(w, msg.uuid, msg.payload, Phase.Handled(!err))
      modifies database, msg
      ensures Next(w, SettleStep(err, t)).db == database.Value()
    {
      var refused;
      if err {
        refused := msg.Nack();
      } else {
        refused := msg.Ack();
      }
      if msg.state == Acked {
        AckMessage(msg.uuid, t.settle);
      } else {
        NackMessage(msg.uuid, now, t);
      }
    }

    method AckMessage(uuid: string, fate: Outcome)
      modifies database
      ensures database.Value() == if fate.RolledBack? then old(database.Value()) else Ack(old(database.Value()), uuid)
    {
      var before := database.Value();
      database.DeleteMessage(uuid);
      var outcome := database.Finish(before, true, fate);
    }

    /** A message that is gone cannot be nacked: the transaction fails and is rolled back. */
    method NackMessage(uuid: string, now: int, t: Turn)
      modifies database
      ensures database.Value() ==
              if t.settle.RolledBack? || uuid !in old(database.pubsub) then old(database.Value())
              else Nack(old(database.Value()), uuid, now,
                        Backoff.MessageErrorBackoff(old(database.pubsub)[uuid].nackCount + 1, t.saturates,
                                                    t.draw)).value
    {
      var before := database.Value();
      if uuid !in database.pubsub {
        var failed := database.Finish(before, false, t.settle);
        return;
      }
      var nackCount := database.pubsub[uuid].nackCount + 1;
      database.BackOff(uuid, now, Backoff.MessageErrorBackoff(nackCount, t.saturates, t.draw));
      var outcome := database.Finish(before, true, t.settle);
    }

    /** One turn, without the pause after it; `looked` is the moment at which it looks for a message. */
    method TakeTurn(t: Turn, ghost w: World) returns (result: TurnResult, ghost looked: World, ghost at: World)
      requires Wired() && surroundings.Agrees(w) && w.deliveries == map[]
      modifies surroundings, database
      ensures surroundings.Agrees(at) && at.deliveries == map[] && IsTurn(t, result, w, looked, at)
    {
      looked := surroundings.Others(w);
      if !t.readOk {
        return ReadFailed, looked, looked;
      }
      var msg := database.ReadMsg(EVENT_SAVED_TOPIC, surroundings.now);
      if msg.None? {
        return NoMessage, looked, looked;
      }
      var ended, err;
      ghost var loaded, last;
      ended, err, loaded, last, at := DeliverOne(msg.value, t, looked);
      LeadsJoin(w, looked, at);
      assert IsDelivery(looked, msg.value, t, ended, err, loaded, last, at);
      result := if ended then Ended else Delivered;
    }

    /** The pause after a turn, if any, and the counter of empty turns after it. */
    method PauseAfter(result: TurnResult, counter: nat, saturates: bool, ghost results: seq<TurnResult>)
      returns (pause: seq<int>, counter': nat)
      requires counter == EmptySinceDelivery(results)
      ensures counter' == EmptySinceDelivery(results + [result])
      ensures Pauses(results + [result]) == Pauses(results) + pause
    {
      OneMoreResult(results, result);
      match result {
        case NoMessage =>
          counter' := counter + 1;
          Backoff.NoMessagesBackoffExact(counter', saturates);
          pause := [Backoff.NoMessagesBackoff(counter', saturates)];
        case ReadFailed =>
          pause, counter' := [1 * Clock.SECOND], counter;
        case Delivered =>
          pause, counter' := [], 0;
        case Ended =>
          pause, counter' := [], counter;
      }
    }

    /** The loop, for as many turns as the context lets it run. Time passes, events are saved and cleaned up at
        any moment, and whatever happens the invariant of the pipeline holds. `looked` and `after` are the moments
        at which each turn looks for a message and ends. */
    method Subscribe(turns: seq<Turn>, ghost w: World)
      returns (waits: seq<int>, results: seq<TurnResult>, ghost looked: seq<World>, ghost after: seq<World>)
      requires Wired() && Inv(w) && surroundings.Agrees(w) && w.deliveries == map[]
      modifies surroundings, database
      ensures AreTurns(w, turns, results, looked, after) && waits == Pauses(results)
      ensures |results| < |turns| ==> results != [] && results[|results| - 1].Ended?
      ensures var at := LastOf(w, after);
              Leads(w, at) && Inv(at) && surroundings.Agrees(at) && at.deliveries == map[]
    {
      var noMessagesCounter: nat := 0;
      waits, results, looked, after := [], [], [], [];
      ghost var at := w;
      LeadsSame(w);
      for i := 0 to |turns|
        invariant Leads(w, at) && surroundings.Agrees(at) && at.deliveries == map[] && at == LastOf(w, after)
        invariant AreTurns(w, turns, results, looked, after)
        invariant |results| == i && waits == Pauses(results) && noMessagesCounter == EmptySinceDelivery(results)
      {
        var result;
        ghost var q, moment := at, at;
        result, moment, at := TakeTurn(turns[i], q);
        LeadsJoin(w, q, at);
        OneMoreTurn(w, turns, results, looked, after, result, moment, at);
        OneMoreResult(results, result);
        results, looked, after := results + [result], looked + [moment], after + [at];
        var pause;
        pause, noMessagesCounter := PauseAfter(result, noMessagesCounter, turns[i].saturates, results[..i]);
        waits := waits + pause;
        if result.Ended? {
          InvLeads(w, at);
          return;
        }
      }
      InvLeads(w, at);
    }
  }

  class CleanupProcessedEventsHandler {
    const surroundings: Surroundings

    constructor (surroundings: Surroundings)
      ensures this.surroundings == surroundings
    {
      this.surroundings := surroundings;
    }

    /** The clock is looked at some time before the transaction runs, in state `before`. */
    method Handle(fate: Outcome, ghost w: World)
      returns (err: bool, deletedCount: nat, ghost before: World, ghost at: World)
      requires surroundings.Agrees(w)
      modifies surroundings, surroundings.database
      ensures surroundings.Agrees(at) && Leads(w, before) && w.now <= before.now
      ensures at == Next(before, Cleanup(before.now - w.now, fate)) && (err <==> !fate.Committed?)
      ensures !fate.RolledBack? ==> deletedCount == |before.db.events| - |at.db.events|
    {
      var cutoffTime := surroundings.now - PROCESSED_EVENT_RETENTION_PERIOD;
      before := surroundings.Others(w);
      LeadsIsLater(w, before);
      deletedCount, at := surroundings.EventsAreCleanedUp(cutoffTime, fate, before);
      err := !fate.Committed?;
    }
  }

  lemma {:induction false} RunIsLater(w: World, steps: seq<Step>)
    ensures w.now <= Run(w, steps).now
  {
    if steps != [] {
      RunIsLater(w, steps[..|steps| - 1]);
    }
  }

  lemma LeadsIsLater(w: World, w': World)
    requires Leads(w, w')
    ensures w.now <= w'.now
  {
    var steps :| w' == Run(w, steps);
    RunIsLater(w, steps);
  }
}
