/** The relational tables of contacts: keys and events have row ids, and rows refer to each other by them. */
module ContactRepository {
  import opened Sequences
  import opened Wrappers
  import opened Contacts

  // ---------------------------------------------------------------- the tables as values

  /** public_keys(id, public_key UNIQUE); rows are only ever added. */
  ghost predicate KeysOk(keys: map<string, nat>) {
    && (forall k :: k in keys ==> keys[k] < |keys|)
    && (forall k, l :: k in keys && l in keys && keys[k] == keys[l] ==> k == l)
  }

  /** events(id INTEGER PRIMARY KEY, event_id UNIQUE, payload), with `ids` the index on event_id. */
  ghost predicate EventsOk(ids: map<string, nat>, events: map<nat, Event>) {
    && (forall i :: i in ids ==> ids[i] in events && events[ids[i]].id == i)
    && (forall r :: r in events ==> events[r].id in ids && ids[events[r].id] == r)
  }

  /** contacts_events(follower_id PRIMARY KEY, event_id UNIQUE); the foreign keys are declared but not enforced, so
      that a row may refer to an event that was deleted, and then to whichever gets its row. */
  ghost predicate LinksOk(keys: map<string, nat>, links: map<nat, nat>) {
    && (forall f :: f in links ==> f < |keys|)
    && (forall f, g :: f in links && g in links && links[f] == links[g] ==> f == g)
  }

  ghost predicate PairsOk(keys: map<string, nat>, pairs: set<(nat, nat)>) {
    forall p :: p in pairs ==> p.0 < |keys| && p.1 < |keys|
  }

  /** The query of GetFollowees. */
  function FolloweesIn(keys: map<string, nat>, pairs: set<(nat, nat)>, author: string): set<string> {
    set k | k in keys && author in keys && (keys[author], keys[k]) in pairs
  }

  /** The row that the author's link points to. */
  function LinkIn(keys: map<string, nat>, links: map<nat, nat>, author: string): Option<nat> {
    if author in keys && keys[author] in links then Some(links[keys[author]]) else None
  }

  /** The query of GetCurrentContactsEvent, with ErrNoContactsEvent as None. */
  function CurrentIn(keys: map<string, nat>, events: map<nat, Event>, links: map<nat, nat>,
                     author: string): Option<Event> {
    if author in keys && keys[author] in links && links[keys[author]] in events then Some(events[links[keys[author]]])
    else None
  }

  function WithKey(keys: map<string, nat>, key: string): map<string, nat> {
    if key in keys then keys else keys[key := |keys|]
  }

  lemma NewKeyKeepsLinks(keys: map<string, nat>, events: map<nat, Event>, links: map<nat, nat>, key: string)
    requires KeysOk(keys) && LinksOk(keys, links)
    ensures var keys' := WithKey(keys, key);
            && KeysOk(keys') && LinksOk(keys', links)
            && (forall a :: CurrentIn(keys', events, links, a) == CurrentIn(keys, events, links, a))
            && (forall a :: LinkIn(keys', links, a) == LinkIn(keys, links, a))
            && (KnownFollowers(keys, links) ==> KnownFollowers(keys', links))
  {
    var keys' := WithKey(keys, key);
    forall f | HasKey(keys, f) ensures HasKey(keys', f) {
      var a :| a in keys && keys[a] == f;
      assert a in keys' && keys'[a] == f;
    }
    if key !in keys {
      assert |keys'| == |keys| + 1 && |keys| !in links;
    }
  }

  lemma NewKeyKeepsFollowees(keys: map<string, nat>, pairs: set<(nat, nat)>, key: string)
    requires KeysOk(keys) && PairsOk(keys, pairs)
    ensures var keys' := WithKey(keys, key);
            PairsOk(keys', pairs) && forall a :: FolloweesIn(keys', pairs, a) == FolloweesIn(keys, pairs, a)
  {
    var keys' := WithKey(keys, key);
    if key !in keys {
      assert |keys'| == |keys| + 1;
      forall a ensures FolloweesIn(keys', pairs, a) == FolloweesIn(keys, pairs, a) {
        assert forall k :: k in keys' && a in keys' && (keys'[a], keys'[k]) in pairs ==> k in keys && a in keys;
      }
    }
  }

  /** DELETE FROM contacts_followees WHERE follower_id = ... */
  function WithoutFollower(pairs: set<(nat, nat)>, follower: nat): set<(nat, nat)> {
    set p | p in pairs && p.0 != follower
  }

  ghost predicate HasKey(keys: map<string, nat>, f: nat) {
    exists a :: a in keys && keys[a] == f
  }

  ghost predicate KnownFollowers(keys: map<string, nat>, links: map<nat, nat>) {
    forall f :: f in links ==> HasKey(keys, f)
  }

  /** Another author's link points to the row. */
  ghost predicate HasOther(keys: map<string, nat>, links: map<nat, nat>, author: string, row: nat) {
    exists a :: a != author && LinkIn(keys, links, a) == Some(row)
  }

  /** The UNIQUE constraint lets an author be linked to a stored event iff no other author's link has its row. */
  lemma LinkIsFreeIff(keys: map<string, nat>, ids: map<string, nat>, events: map<nat, Event>, links: map<nat, nat>,
                      e: Event)
    requires KeysOk(keys) && EventsOk(ids, events) && LinksOk(keys, links) && KnownFollowers(keys, links)
    requires e.author in keys && e.id in ids && events[ids[e.id]] == e
    ensures (forall f :: f in links && f != keys[e.author] ==> links[f] != ids[e.id])
            <==> !HasOther(keys, links, e.author, ids[e.id])
    ensures var links' := links[keys[e.author] := ids[e.id]];
            !HasOther(keys, links, e.author, ids[e.id]) ==>
              && LinksOk(keys, links') && KnownFollowers(keys, links')
              && CurrentIn(keys, events, links', e.author) == Some(e)
              && forall a :: a != e.author ==> CurrentIn(keys, events, links', a) == CurrentIn(keys, events, links, a)
  {
    if f :| f in links && f != keys[e.author] && links[f] == ids[e.id] {
      assert HasKey(keys, f);
      var a :| a in keys && keys[a] == f;
      assert LinkIn(keys, links, a) == Some(ids[e.id]);
    }
    assert HasKey(keys, keys[e.author]);
  }

  // ---------------------------------------------------------------- row ids are used again

  /** The id that SQLite gives a new row of a table without AUTOINCREMENT: one more than the largest. */
  ghost predicate IsNextRow(events: map<nat, Event>, row: nat) {
    && (forall r :: r in events ==> r < row)
    && (if row == 1 then events == map[] || 0 in events else row > 0 && row - 1 in events)
  }

  /** The row of a deleted event that some author's link still points to. */
  ghost predicate Dangles(events: map<nat, Event>, links: map<nat, nat>, row: nat) {
    row !in events && exists f :: f in links && links[f] == row
  }

  ghost predicate SameCurrent(keys: map<string, nat>, events: map<nat, Event>, events': map<nat, Event>,
                              links: map<nat, nat>) {
    forall a :: CurrentIn(keys, events', links, a) == CurrentIn(keys, events, links, a)
  }

  /** A link dangles at the row that the next event gets. */
  ghost predicate DanglesNext(events: map<nat, Event>, links: map<nat, nat>) {
    exists row :: IsNextRow(events, row) && Dangles(events, links, row)
  }

  ghost function StoredIn(ids: map<string, nat>, events: map<nat, Event>): map<string, Event> {
    map i | i in ids && ids[i] in events :: events[ids[i]]
  }

  /** Storing an event keeps every author's current event iff no link dangles at the row that it gets;
      otherwise some author's current event is from then on this one, whosever it is. */
  lemma StoringKeepsCurrentIff(keys: map<string, nat>, ids: map<string, nat>, events: map<nat, Event>,
                               links: map<nat, nat>, e: Event, row: nat)
    requires KeysOk(keys) && EventsOk(ids, events) && LinksOk(keys, links) && KnownFollowers(keys, links)
    requires e.id !in ids && IsNextRow(events, row)
    ensures EventsOk(ids[e.id := row], events[row := e])
    ensures SameCurrent(keys, events, events[row := e], links) <==> !Dangles(events, links, row)
    ensures forall a :: a in keys && keys[a] in links && links[keys[a]] == row ==>
              CurrentIn(keys, events, links, a) == None && CurrentIn(keys, events[row := e], links, a) == Some(e)
  {
    if f :| f in links && links[f] == row {
      assert HasKey(keys, f);
      var a :| a in keys && keys[a] == f;
      assert CurrentIn(keys, events, links, a) == None && CurrentIn(keys, events[row := e], links, a) == Some(e);
    }
  }

  /** When the next row is one that a link dangles at: the linked event was deleted, and so was every later one,
      but not the one just before, if there was one. */
  lemma DanglesAtNextIff(ids: map<string, nat>, events: map<nat, Event>, links: map<nat, nat>, gone: set<nat>, f: nat,
                         row: nat)
    requires EventsOk(ids, events) && f in links && links[f] in events && IsNextRow(events - gone, row)
    ensures links[f] == row <==>
              && links[f] > 0 && (forall r :: r in events && r >= links[f] ==> r in gone)
              && (links[f] == 1 || (links[f] - 1 in events && links[f] - 1 !in gone))
  {
    var left := events - gone;
    assert forall r :: r in left <==> r in events && r !in gone;
    if links[f] == row {
      assert forall r :: r in events && r >= row ==> r !in left;
    } else if links[f] > row {
      assert links[f] !in left && links[f] - 1 !in left;
    } else {
      assert row > 1 ==> row - 1 in left;
    }
  }

  /** Deleting events: an author's answer stays unless the deleted event is the current one, which is then
      forgotten. */
  lemma CleanupForgetsIff(keys: map<string, nat>, ids: map<string, nat>, events: map<nat, Event>, links: map<nat, nat>,
                          gone: set<string>, author: string)
    requires KeysOk(keys) && EventsOk(ids, events) && LinksOk(keys, links)
    ensures var before, after := CurrentIn(keys, events, links, author),
              CurrentIn(keys, Remaining(events, gone), links, author);
            after == if before.Some? && before.value.id in gone then None else before
  {
  }

  function Remaining(events: map<nat, Event>, gone: set<string>): map<nat, Event> {
    map r | r in events && events[r].id !in gone :: events[r]
  }

  /** The authors whose current event was deleted have none now, the others what they had. */
  ghost predicate ForgottenOnly(keys: map<string, nat>, events: map<nat, Event>, events': map<nat, Event>,
                                links: map<nat, nat>, gone: set<string>) {
    forall a :: ForgottenFor(keys, events, events', links, gone, a)
  }

  ghost predicate ForgottenFor(keys: map<string, nat>, events: map<nat, Event>, events': map<nat, Event>,
                               links: map<nat, nat>, gone: set<string>, a: string) {
    var before := CurrentIn(keys, events, links, a);
    CurrentIn(keys, events', links, a) == if before.Some? && before.value.id in gone then None else before
  }

  lemma RemainingOk(keys: map<string, nat>, ids: map<string, nat>, events: map<nat, Event>, links: map<nat, nat>,
                    gone: set<string>)
    requires KeysOk(keys) && EventsOk(ids, events) && LinksOk(keys, links)
    ensures EventsOk(ids - gone, Remaining(events, gone))
    ensures StoredIn(ids - gone, Remaining(events, gone)) == StoredIn(ids, events) - gone
    ensures ForgottenOnly(keys, events, Remaining(events, gone), links, gone)
  {
    forall a ensures ForgottenFor(keys, events, Remaining(events, gone), links, gone, a) {
      CleanupForgetsIff(keys, ids, events, links, gone, a);
    }
  }

  /** The answers to the two queries are those of the book. */
  ghost predicate Answers(keys: map<string, nat>, events: map<nat, Event>, links: map<nat, nat>,
                          pairs: set<(nat, nat)>, b: Book) {
    forall a :: AnswersFor(keys, events, links, pairs, b, a)
  }

  ghost predicate AnswersFor(keys: map<string, nat>, events: map<nat, Event>, links: map<nat, nat>,
                             pairs: set<(nat, nat)>, b: Book, a: string) {
    && CurrentIn(keys, events, links, a) == (if a in b.current then Some(b.current[a]) else None)
    && LinkIn(keys, links, a) == (if a in b.links then Some(b.links[a]) else None)
    && FolloweesIn(keys, pairs, a) == (if a in b.followees then b.followees[a] else {})
  }

  /** The tables that say who follows whom. */
  datatype Contents = Contents(keys: map<string, nat>, links: map<nat, nat>, pairs: set<(nat, nat)>)

  ghost predicate SameFor(c: Contents, c': Contents, events: map<nat, Event>, a: string) {
    && CurrentIn(c'.keys, events, c'.links, a) == CurrentIn(c.keys, events, c.links, a)
    && LinkIn(c'.keys, c'.links, a) == LinkIn(c.keys, c.links, a)
    && FolloweesIn(c'.keys, c'.pairs, a) == FolloweesIn(c.keys, c.pairs, a)
  }

  /** The queries about other authors have the answers they had. */
  ghost predicate OthersSame(c: Contents, c': Contents, events: map<nat, Event>, author: string) {
    forall a :: a != author ==> SameFor(c, c', events, a)
  }

  lemma OthersSameJoin(a: Contents, b: Contents, c: Contents, events: map<nat, Event>, author: string)
    requires OthersSame(a, b, events, author) && OthersSame(b, c, events, author)
    ensures OthersSame(a, c, events, author)
  {
    forall x | x != author ensures SameFor(a, c, events, x) {
      assert SameFor(a, b, events, x) && SameFor(b, c, events, x);
    }
  }

  lemma StillTaken(c: Contents, c': Contents, events: map<nat, Event>, author: string, row: nat)
    requires forall a :: SameFor(c, c', events, a)
    ensures HasOther(c'.keys, c'.links, author, row) <==> HasOther(c.keys, c.links, author, row)
  {
    if a :| a != author && LinkIn(c.keys, c.links, a) == Some(row) {
      assert SameFor(c, c', events, a) && LinkIn(c'.keys, c'.links, a) == Some(row);
    }
    if a :| a != author && LinkIn(c'.keys, c'.links, a) == Some(row) {
      assert SameFor(c, c', events, a) && LinkIn(c.keys, c.links, a) == Some(row);
    }
  }

  lemma AnswersAfterSet(c: Contents, c': Contents, events: map<nat, Event>, b: Book, e: Event)
    requires Answers(c.keys, events, c.links, c.pairs, b) && Replaces(b, e) && OthersSame(c, c', events, e.author)
    requires CurrentIn(c'.keys, events, c'.links, e.author) == Some(e)
    requires FolloweesIn(c'.keys, c'.pairs, e.author) == KeysOf(e.tags)
    requires e.id in b.rows && LinkIn(c'.keys, c'.links, e.author) == Some(b.rows[e.id])
    ensures Answers(c'.keys, events, c'.links, c'.pairs, Replaced(b, e))
  {
    forall a ensures AnswersFor(c'.keys, events, c'.links, c'.pairs, Replaced(b, e), a) {
      assert AnswersFor(c.keys, events, c.links, c.pairs, b, a);
      assert a != e.author ==> SameFor(c, c', events, a);
    }
  }

  lemma AnswersAfterDelete(keys: map<string, nat>, events: map<nat, Event>, events': map<nat, Event>,
                           links: map<nat, nat>, pairs: set<(nat, nat)>, b: Book, gone: set<string>)
    requires Answers(keys, events, links, pairs, b) && ForgottenOnly(keys, events, events', links, gone)
    ensures Answers(keys, events', links, pairs, Happens(b, Forget(gone)))
  {
    var b' := Happens(b, Forget(gone));
    forall a ensures AnswersFor(keys, events', links, pairs, b', a) {
      assert AnswersFor(keys, events, links, pairs, b, a) && ForgottenFor(keys, events, events', links, gone, a);
    }
  }

  lemma AnswersAfterProcess(keys: map<string, nat>, events: map<nat, Event>, links: map<nat, nat>,
                            pairs: set<(nat, nat)>, b: Book, e: Event, addresses: seq<string>)
    requires Answers(keys, events, links, pairs, Replaced(b, e)) && Succeeds(b, Process(e, addresses))
    ensures var b' := Happens(b, Process(e, addresses));
            && Answers(keys, events, links, pairs, b')
            && b'.stored == b.stored && b'.rows == b.rows && b'.relays == b.relays + Elements(addresses)
  {
    var b' := Happens(b, Process(e, addresses));
    var c := Replaced(b, e);
    assert b'.current == c.current && b'.links == c.links && b'.followees == c.followees;
    forall a ensures AnswersFor(keys, events, links, pairs, b', a) {
      assert AnswersFor(keys, events, links, pairs, Replaced(b, e), a);
    }
    if e.id !in b.stored {
      assert Elements(addresses) == {};
    }
  }

  /** The current event of the author, by the changes so far. */
  ghost predicate IsCurrentAfter(cs: seq<Change>, author: string, current: Option<Event>) {
    match current
    case None => !AnySince(cs, LastTaken(cs, author), author)
    case Some(e) => NewestSince(cs, LastTaken(cs, author), author, e)
  }

  lemma AnswersAfterStore(keys: map<string, nat>, ids: map<string, nat>, events: map<nat, Event>,
                          events': map<nat, Event>, links: map<nat, nat>, pairs: set<(nat, nat)>, b: Book, e: Event)
    requires EventsOk(ids, events) && Answers(keys, events, links, pairs, b) && ids == b.rows && e.id !in b.stored
    requires events' == events[NextRowOf(ids) := e]
    ensures Answers(keys, events', links, pairs, Happens(b, Store(e)))
  {
    var b' := Happens(b, Store(e));
    IsTheNextRow(ids, events);
    forall a ensures AnswersFor(keys, events', links, pairs, b', a) {
      assert AnswersFor(keys, events, links, pairs, b, a);
    }
  }

  lemma TakenIff(keys: map<string, nat>, ids: map<string, nat>, events: map<nat, Event>, links: map<nat, nat>,
                 pairs: set<(nat, nat)>, b: Book, e: Event)
    requires Answers(keys, events, links, pairs, b) && ids == b.rows && e.id in ids
    ensures LinkTaken(b, e) <==> HasOther(keys, links, e.author, ids[e.id])
  {
    if a :| a != e.author && LinkIn(keys, links, a) == Some(ids[e.id]) {
      assert AnswersFor(keys, events, links, pairs, b, a);
    }
    if a :| a in b.links && a != e.author && b.links[a] == ids[e.id] {
      assert AnswersFor(keys, events, links, pairs, b, a);
      assert LinkIn(keys, links, a) == Some(ids[e.id]);
    }
  }

  lemma ForgottenBook(b: Book, gone: set<string>)
    ensures var b' := Happens(b, Forget(gone));
            b'.stored == b.stored - gone && b'.rows == b.rows - gone && b'.relays == b.relays
  {
  }

  ghost predicate TablesOk(keys: map<string, nat>, ids: map<string, nat>, events: map<nat, Event>,
                           links: map<nat, nat>, pairs: set<(nat, nat)>) {
    && KeysOk(keys) && EventsOk(ids, events) && LinksOk(keys, links) && PairsOk(keys, pairs)
    && KnownFollowers(keys, links)
  }

  lemma OneNextRow(events: map<nat, Event>, row: nat)
    requires IsNextRow(events, row)
    ensures forall r :: IsNextRow(events, r) ==> r == row
  {
    forall r: nat | IsNextRow(events, r) ensures r == row {
    }
  }

  lemma NextRowIs(ids: map<string, nat>, events: map<nat, Event>, row: nat)
    requires EventsOk(ids, events) && IsNextRow(events, row)
    ensures row == NextRowOf(ids)
  {
    if events == map[] {
      assert forall i :: i !in ids;
    } else {
      var last := MaxOf(ids.Values);
      var r :| r in events;
      assert events[r].id in ids;
      assert last < row;
      if row > 1 || 0 in events {
        assert row - 1 in events && ids[events[row - 1].id] == row - 1;
        assert row - 1 in ids.Values;
      }
    }
  }

  lemma IsTheNextRow(ids: map<string, nat>, events: map<nat, Event>)
    requires EventsOk(ids, events)
    ensures IsNextRow(events, NextRowOf(ids)) && NextRowOf(ids) !in events
  {
    assert forall r :: r in events ==> events[r].id in ids && ids[events[r].id] == r;
    if ids != map[] {
      var last := MaxOf(ids.Values);
      var id :| id in ids && ids[id] == last;
      assert last in events;
    }
  }

  lemma RowOfNewEvent(keys: map<string, nat>, ids: map<string, nat>, events: map<nat, Event>,
                      links: map<nat, nat>, pairs: set<(nat, nat)>, e: Event, row: nat)
    requires TablesOk(keys, ids, events, links, pairs) && e.id !in ids && IsNextRow(events, row)
    ensures StoredIn(ids[e.id := row], events[row := e]) == StoredIn(ids, events)[e.id := e]
    ensures SameCurrent(keys, events, events[row := e], links) <==> !Dangles(events, links, row)
    ensures TablesOk(keys, ids[e.id := row], events[row := e], links, pairs)
    ensures row == NextRowOf(ids) && row !in events && (DanglesNext(events, links) <==> Dangles(events, links, row))
  {
    StoringKeepsCurrentIff(keys, ids, events, links, e, row);
    OneNextRow(events, row);
    NextRowIs(ids, events, row);
  }

  lemma FolloweeAdded(keys: map<string, nat>, ids: map<string, nat>, events: map<nat, Event>, links: map<nat, nat>,
                      pairs: set<(nat, nat)>, author: string, contact: string)
    requires TablesOk(keys, ids, events, links, pairs) && author in keys && contact in keys
    ensures var pair := (keys[author], keys[contact]);
            && TablesOk(keys, ids, events, links, pairs + {pair})
            && FolloweesIn(keys, pairs + {pair}, author) == FolloweesIn(keys, pairs, author) + {contact}
            && OthersSame(Contents(keys, links, pairs), Contents(keys, links, pairs + {pair}), events, author)
            && (pair in pairs <==> contact in FolloweesIn(keys, pairs, author))
  {
  }

  // ---------------------------------------------------------------- the repository

  class ContactTables {
    var publicKeys: map<string, nat>
    var eventIds: map<string, nat>
    var events: map<nat, Event>
    var contactsEvents: map<nat, nat>
    var contactsFollowees: set<(nat, nat)>

    ghost predicate Valid()
      reads this
    {
      TablesOk(publicKeys, eventIds, events, contactsEvents, contactsFollowees)
    }

    constructor ()
      ensures Valid() && events == map[] && eventIds == map[] && publicKeys == map[] && contactsEvents == map[]
      ensures contactsFollowees == {}
    {
      publicKeys, eventIds, events, contactsEvents, contactsFollowees := map[], map[], map[], map[], {};
    }

    function Current(author: string): Option<Event>
      reads this
    {
      CurrentIn(publicKeys, events, contactsEvents, author)
    }

    ghost function LinkOf(author: string): Option<nat>
      reads this
    {
      LinkIn(publicKeys, contactsEvents, author)
    }

    function Followees(author: string): set<string>
      reads this
    {
      FolloweesIn(publicKeys, contactsFollowees, author)
    }

    ghost function Now(): Contents
      reads this
    {
      Contents(publicKeys, contactsEvents, contactsFollowees)
    }

    ghost function StoredEvents(): map<string, Event>
      reads this
    {
      StoredIn(eventIds, events)
    }

    /** The event is stored with this payload. */
    ghost predicate Stores(e: Event)
      reads this
    {
      e.id in StoredEvents() && StoredEvents()[e.id] == e
    }

    /** The largest row id is found row by row. */
    method NextRow() returns (row: nat)
      ensures IsNextRow(events, row)
    {
      row := 1;
      var todo := events.Keys;
      while todo != {}
        invariant todo <= events.Keys && row >= 1
        invariant forall r :: r in events && r !in todo ==> r < row
        invariant row == 1 || row - 1 in events
        invariant row == 1 ==> todo == events.Keys || 0 in events
        decreases |todo|
      {
        var r :| r in todo;
        todo := todo - {r};
        if r >= row {
          row := r + 1;
        }
      }
    }

    /** Stores a new event in the next row. Every author's current event stays as it was iff no link dangles at
        that row. */
    method StoreEvent(e: Event)
      requires Valid() && (e.id in eventIds ==> Stores(e))
      modifies this`eventIds, this`events
      ensures Valid() && StoredEvents() == old(StoredEvents())[e.id := e]
      ensures e.id in old(eventIds) ==> eventIds == old(eventIds) && events == old(events)
      ensures e.id !in old(eventIds) ==>
                && eventIds == old(eventIds)[e.id := NextRowOf(old(eventIds))]
                && events == old(events)[NextRowOf(old(eventIds)) := e]
      ensures SameCurrent(publicKeys, old(events), events, contactsEvents)
              <==> e.id in old(eventIds) || !DanglesNext(old(events), contactsEvents)
    {
      if e.id in eventIds {
        return;
      }
      var row := NextRow();
      RowOfNewEvent(publicKeys, eventIds, events, contactsEvents, contactsFollowees, e, row);
      eventIds := eventIds[e.id := row];
      events := events[row := e];
    }

    /** DELETE FROM events: what points to the rows stays. */
    method DeleteEvents(gone: set<string>)
      requires Valid()
      modifies this`eventIds, this`events
      ensures Valid() && StoredEvents() == old(StoredEvents()) - gone && eventIds == old(eventIds) - gone
      ensures ForgottenOnly(publicKeys, old(events), events, contactsEvents, gone)
    {
      RemainingOk(publicKeys, eventIds, events, contactsEvents, gone);
      eventIds := eventIds - gone;
      events := Remaining(events, gone);
    }

    /** INSERT OR IGNORE INTO public_keys, then SELECT id. */
    method KeyId(key: string) returns (id: nat)
      requires Valid()
      modifies this`publicKeys
      ensures Valid() && key in publicKeys && publicKeys[key] == id && publicKeys == WithKey(old(publicKeys), key)
      ensures forall a :: SameFor(old(Now()), Now(), events, a)
    {
      NewKeyKeepsLinks(publicKeys, events, contactsEvents, key);
      NewKeyKeepsFollowees(publicKeys, contactsFollowees, key);
      if key !in publicKeys {
        var row := |publicKeys|;
        publicKeys := publicKeys[key := row];
      }
      id := publicKeys[key];
    }

    /** INSERT INTO contacts_followees: false when its primary key, the pair, is taken. */
    method InsertFollowee(follower: nat, followee: nat) returns (ok: bool)
      modifies this`contactsFollowees
      ensures ok <==> (follower, followee) !in old(contactsFollowees)
      ensures contactsFollowees == old(contactsFollowees) + {(follower, followee)}
    {
      ok := (follower, followee) !in contactsFollowees;
      contactsFollowees := contactsFollowees + {(follower, followee)};
    }

    /** INSERT INTO contacts_events ... ON CONFLICT(follower_id) DO UPDATE: false when the event_id is
        taken by another follower. */
    method UpsertContactsEvent(follower: nat, row: nat) returns (ok: bool)
      modifies this`contactsEvents
      ensures ok <==> forall f :: f in old(contactsEvents) && f != follower ==> old(contactsEvents)[f] != row
      ensures contactsEvents == if ok then old(contactsEvents)[follower := row] else old(contactsEvents)
    {
      ok := forall f :: f in contactsEvents && f != follower ==> contactsEvents[f] != row;
      if ok {
        contactsEvents := contactsEvents[follower := row];
      }
    }

    /** One contact of the author's list: its key, then the pair. */
    method AddFollowee(author: string, follower: nat, contact: string) returns (ok: bool)
      requires Valid() && author in publicKeys && publicKeys[author] == follower
      modifies this`publicKeys, this`contactsFollowees
      ensures Valid() && author in publicKeys && publicKeys[author] == follower
      ensures ok <==> contact !in old(Followees(author))
      ensures Followees(author) == old(Followees(author)) + {contact} && Current(author) == old(Current(author))
      ensures LinkOf(author) == old(LinkOf(author))
      ensures OthersSame(old(Now()), Now(), events, author)
    {
      var followee := KeyId(contact);
      assert SameFor(old(Now()), Now(), events, author);
      ghost var between := Now();
      FolloweeAdded(publicKeys, eventIds, events, contactsEvents, contactsFollowees, author, contact);
      ok := InsertFollowee(follower, followee);
      OthersSameJoin(old(Now()), between, Now(), events, author);
    }

    method AddFollowees(author: string, follower: nat, contacts: seq<string>) returns (ok: bool)
      requires Valid() && author in publicKeys && publicKeys[author] == follower && Followees(author) == {}
      modifies this`publicKeys, this`contactsFollowees
      ensures Valid() && (ok <==> NoDuplicates(contacts)) && (ok ==> Followees(author) == Elements(contacts))
      ensures Current(author) == old(Current(author)) && LinkOf(author) == old(LinkOf(author))
      ensures OthersSame(old(Now()), Now(), events, author)
    {
      for i := 0 to |contacts|
        invariant Valid() && author in publicKeys && publicKeys[author] == follower
        invariant NoDuplicates(contacts[..i]) && Followees(author) == Elements(contacts[..i])
        invariant Current(author) == old(Current(author)) && LinkOf(author) == old(LinkOf(author))
        invariant OthersSame(old(Now()), Now(), events, author)
      {
        assert contacts[..i + 1] == contacts[..i] + [contacts[i]];
        ElementsOfOneMore(contacts[..i], contacts[i]);
        ListedTwiceIff(contacts, i);
        ghost var between := Now();
        var inserted := AddFollowee(author, follower, contacts[i]);
        OthersSameJoin(old(Now()), between, Now(), events, author);
        if !inserted {
          return false;
        }
      }
      assert contacts[..|contacts|] == contacts;
      return true;
    }

    /** Another author's link has the event's row. */
    ghost predicate Taken(e: Event)
      reads this
    {
      e.id in eventIds && HasOther(publicKeys, contactsEvents, e.author, eventIds[e.id])
    }

    /** The link, and an empty list of followees. */
    method Link(e: Event, follower: nat) returns (ok: bool)
      requires Valid() && Stores(e) && e.author in publicKeys && publicKeys[e.author] == follower
      modifies this`contactsEvents, this`contactsFollowees
      ensures Valid() && (ok <==> !old(Taken(e)))
      ensures ok ==> Current(e.author) == Some(e) && Followees(e.author) == {}
      ensures ok ==> LinkOf(e.author) == Some(eventIds[e.id])
      ensures OthersSame(old(Now()), Now(), events, e.author)
    {
      LinkIsFreeIff(publicKeys, eventIds, events, contactsEvents, e);
      ok := UpsertContactsEvent(follower, eventIds[e.id]);
      if !ok {
        return;
      }
      contactsFollowees := WithoutFollower(contactsFollowees, follower);
    }

    /** Replaces the author's current event and followees. It fails iff the event is not stored, another author's
        link has its row or a contact is listed twice; other authors' answers are the same as before in any case. */
    method SetContacts(e: Event, contacts: seq<string>) returns (ok: bool)
      requires Valid() && (e.id in eventIds ==> Stores(e))
      modifies this`publicKeys, this`contactsEvents, this`contactsFollowees
      ensures Valid() && (ok <==> e.id in eventIds && !old(Taken(e)) && NoDuplicates(contacts))
      ensures ok ==> Current(e.author) == Some(e) && Followees(e.author) == Elements(contacts)
      ensures ok ==> LinkOf(e.author) == Some(eventIds[e.id])
      ensures OthersSame(old(Now()), Now(), events, e.author)
    {
      var follower := KeyId(e.author);
      if e.id !in eventIds {
        return false;
      }
      ghost var a := Now();
      StillTaken(old(Now()), a, events, e.author, eventIds[e.id]);
      var linked := Link(e, follower);
      OthersSameJoin(old(Now()), a, Now(), events, e.author);
      if !linked {
        return false;
      }
      ghost var b := Now();
      ok := AddFollowees(e.author, follower, contacts);
      OthersSameJoin(old(Now()), b, Now(), events, e.author);
    }
  }

  lemma ListedTwiceIff(contacts: seq<string>, i: nat)
    requires i < |contacts| && NoDuplicates(contacts[..i])
    ensures contacts[i] in Elements(contacts[..i]) ==> !NoDuplicates(contacts)
    ensures contacts[i] !in Elements(contacts[..i]) ==> NoDuplicates(contacts[..i + 1])
  {
    if contacts[i] in Elements(contacts[..i]) {
      var j :| 0 <= j < i && contacts[..i][j] == contacts[i];
      assert contacts[j] == contacts[i];
    } else {
      assert forall j :: 0 <= j < i ==> contacts[..i][j] in Elements(contacts[..i]);
    }
  }

  // ---------------------------------------------------------------- relays

  /** Every address has a row, old ones have kept theirs, and the event's row is tied to each of them. */
  ghost predicate RelaysSaved(was: map<string, nat>, pairs: set<(nat, nat)>,
                              relays: map<string, nat>, pairs': set<(nat, nat)>,
                              row: nat, addresses: seq<string>) {
    && (forall a :: a in relays <==> a in was || a in addresses)
    && (forall a :: a in was ==> relays[a] == was[a])
    && (forall p :: p in pairs' <==> p in pairs || IsRelayOf(p, row, relays, addresses))
  }

  ghost predicate IsRelayOf(p: (nat, nat), row: nat, relays: map<string, nat>, addresses: seq<string>) {
    p.0 == row && exists a :: a in addresses && a in relays && relays[a] == p.1
  }

  lemma OneMoreRelayOf(p: (nat, nat), row: nat, relays: map<string, nat>, addresses: seq<string>, address: string)
    requires forall a :: a in addresses ==> a in relays
    ensures var more := WithKey(relays, address);
            IsRelayOf(p, row, more, addresses + [address]) <==>
            IsRelayOf(p, row, relays, addresses) || p == (row, more[address])
  {
    var more := WithKey(relays, address);
    assert address in addresses + [address];
    if IsRelayOf(p, row, relays, addresses) {
      var a :| a in addresses && a in relays && relays[a] == p.1;
      assert a in addresses + [address] && more[a] == p.1;
    }
  }

  lemma OneMoreRelay(was: map<string, nat>, pairs: set<(nat, nat)>,
                     relays: map<string, nat>, pairs': set<(nat, nat)>,
                     row: nat, addresses: seq<string>, address: string)
    requires RelaysSaved(was, pairs, relays, pairs', row, addresses)
    ensures var more := WithKey(relays, address);
            RelaysSaved(was, pairs, more, pairs' + {(row, more[address])}, row, addresses + [address])
  {
    forall p ensures IsRelayOf(p, row, WithKey(relays, address), addresses + [address]) <==>
                     IsRelayOf(p, row, relays, addresses) || p == (row, WithKey(relays, address)[address]) {
      OneMoreRelayOf(p, row, relays, addresses, address);
    }
  }

  /** relays(id, address UNIQUE) and events_to_relays(event_id, relay_id). */
  class RelayTables {
    var relays: map<string, nat>
    var eventsToRelays: set<(nat, nat)>

    constructor ()
      ensures relays == map[] && eventsToRelays == {}
    {
      relays, eventsToRelays := map[], {};
    }

    /** INSERT OR IGNORE INTO relays. */
    method InsertRelay(address: string) returns (relay: nat)
      modifies this`relays
      ensures relays == WithKey(old(relays), address) && relays.Keys == old(relays).Keys + {address}
      ensures relays[address] == relay
    {
      if address !in relays {
        relays := relays[address := |relays|];
      }
      relay := relays[address];
    }

    /** INSERT OR IGNORE twice; an error iff the event has no row. */
    method Save(eventIds: map<string, nat>, id: string, address: string) returns (ok: bool)
      modifies this
      ensures relays == WithKey(old(relays), address) && relays.Keys == old(relays).Keys + {address}
      ensures ok <==> id in eventIds
      ensures ok ==> eventsToRelays == old(eventsToRelays) + {(eventIds[id], relays[address])}
      ensures !ok ==> eventsToRelays == old(eventsToRelays)
    {
      var relay := InsertRelay(address);
      if id !in eventIds {
        return false;
      }
      eventsToRelays := eventsToRelays + {(eventIds[id], relay)};
      return true;
    }

    /** Address by address. */
    method SaveAll(eventIds: map<string, nat>, id: string, addresses: seq<string>) returns (ok: bool)
      modifies this
      ensures ok <==> addresses == [] || id in eventIds
      ensures ok && id in eventIds ==>
                RelaysSaved(old(relays), old(eventsToRelays), relays, eventsToRelays, eventIds[id], addresses)
      ensures addresses == [] ==> relays == old(relays) && eventsToRelays == old(eventsToRelays)
      ensures ok ==> relays.Keys == old(relays).Keys + Elements(addresses)
    {
      for i := 0 to |addresses|
        invariant i > 0 ==> id in eventIds
        invariant i == 0 ==> relays == old(relays) && eventsToRelays == old(eventsToRelays)
        invariant id in eventIds ==> RelaysSaved(old(relays), old(eventsToRelays), relays, eventsToRelays, eventIds[id],
                                                 addresses[..i])
      {
        if id in eventIds {
          OneMoreRelay(old(relays), old(eventsToRelays), relays, eventsToRelays, eventIds[id], addresses[..i],
                       addresses[i]);
        }
        assert addresses[..i + 1] == addresses[..i] + [addresses[i]];
        ok := Save(eventIds, id, addresses[i]);
        if !ok {
          return;
        }
      }
      assert addresses[..|addresses|] == addresses;
      ok := true;
    }
  }

  // ---------------------------------------------------------------- processing contacts events

  class ContactsHandler {
    const tables: ContactTables
    const relayTables: RelayTables

    constructor (tables: ContactTables, relayTables: RelayTables)
      ensures this.tables == tables && this.relayTables == relayTables
    {
      this.tables, this.relayTables := tables, relayTables;
    }

    /** The tables say of each author what the book says. */
    ghost predicate Shows(b: Book)
      reads tables, relayTables
    {
      && tables.Valid() && tables.StoredEvents() == b.stored && tables.eventIds == b.rows
      && relayTables.relays.Keys == b.relays && Answer(b)
    }

    ghost predicate Answer(b: Book)
      reads tables
    {
      Answers(tables.publicKeys, tables.events, tables.contactsEvents, tables.contactsFollowees, b)
    }

    /** saveRelaysAndContacts in its transaction: what fails is rolled back. */
    method SaveRelaysAndContacts(e: Event, addresses: seq<string>, ghost b: Book) returns (ok: bool)
      requires Shows(b) && (e.id in b.stored ==> b.stored[e.id] == e)
      modifies tables`publicKeys, tables`contactsEvents, tables`contactsFollowees, relayTables
      ensures Shows(Happens(b, Process(e, addresses))) && (ok <==> Succeeds(b, Process(e, addresses)))
    {
      var publicKeys, contactsEvents, contactsFollowees := tables.publicKeys, tables.contactsEvents,
        tables.contactsFollowees;
      var relays, eventsToRelays := relayTables.relays, relayTables.eventsToRelays;
      ghost var b' := Happens(b, Process(e, addresses));
      ok := SaveBoth(e, addresses, b);
      if ok {
        assert Answer(b') && b'.stored == b.stored && b'.rows == b.rows && relayTables.relays.Keys == b'.relays by {
          AnswersAfterProcess(tables.publicKeys, tables.events, tables.contactsEvents, tables.contactsFollowees, b, e,
                              addresses);
        }
      } else {
        assert b' == b;
        tables.publicKeys, tables.contactsEvents, tables.contactsFollowees := publicKeys, contactsEvents,
          contactsFollowees;
        relayTables.relays, relayTables.eventsToRelays := relays, eventsToRelays;
      }
    }

    /** The relays, then the contacts; the first error ends it. */
    method SaveBoth(e: Event, addresses: seq<string>, ghost b: Book) returns (ok: bool)
      requires Shows(b) && (e.id in b.stored ==> b.stored[e.id] == e)
      modifies tables`publicKeys, tables`contactsEvents, tables`contactsFollowees, relayTables
      ensures ok ==> tables.Valid() && Answer(Replaced(b, e))
      ensures ok ==> relayTables.relays.Keys == b.relays + Elements(addresses)
      ensures ok <==> Succeeds(b, Process(e, addresses))
    {
      ok := relayTables.SaveAll(tables.eventIds, e.id, addresses);
      if ok {
        ok := SaveContacts(e, b);
      }
    }

    method SaveContacts(e: Event, ghost b: Book) returns (ok: bool)
      requires tables.Valid() && tables.StoredEvents() == b.stored && tables.eventIds == b.rows && Answer(b)
      requires e.id in b.stored ==> b.stored[e.id] == e
      modifies tables`publicKeys, tables`contactsEvents, tables`contactsFollowees
      ensures ok ==> tables.Valid() && Answer(Replaced(b, e))
      ensures ok <==> !Fails(b, e)
    {
      var contacts := ExtractFromContacts(e);
      if contacts.None? {
        return true;
      }
      var current := tables.Current(e.author);
      assert AnswersFor(tables.publicKeys, tables.events, tables.contactsEvents, tables.contactsFollowees, b, e.author);
      if current.Some? {
        var should := ShouldReplaceContactsEvent(current.value, e);
        if should.Err? {
          return false;
        }
        if !should.value {
          return true;
        }
      }
      if e.id in tables.eventIds {
        TakenIff(tables.publicKeys, tables.eventIds, tables.events, tables.contactsEvents, tables.contactsFollowees, b,
                 e);
      }
      ok := tables.SetContacts(e, contacts.value);
      if ok {
        AnswersAfterSet(old(tables.Now()), tables.Now(), tables.events, b, e);
      }
    }

    /** A save, a delivery or a clean-up: the tables go on to show what happens. */
    method Change(c: Change, ghost b: Book) returns (ok: bool)
      requires Shows(b) && (!c.Forget? && c.e.id in b.stored ==> b.stored[c.e.id] == c.e)
      modifies tables, relayTables
      ensures Shows(Happens(b, c)) && (ok <==> Succeeds(b, c))
    {
      ok := true;
      match c
      case Store(e) => StoreChange(e, b);
      case Forget(ids) => DeleteChange(ids, b);
      case Process(e, addresses) => ok := SaveRelaysAndContacts(e, addresses, b);
    }

    /** Any run of saves, deliveries (with repetitions) and clean-ups. As long as no event is stored in a row that a
        link still points to, which takes a clean-up, each author's current event is a newest one of those processed
        since the last clean-up that took the current one. */
    method Changes(cs: seq<Change>) returns (oks: seq<bool>)
      requires Shows(EMPTY) && IdsAreHashes(cs)
      modifies tables, relayTables
      ensures Shows(HappenAll(cs)) && |oks| == |cs| && ResultsAre(oks, cs)
      ensures NothingDangles(cs, |cs|) ==> Shows(ApplyAll(cs)) && forall a :: IsCurrentAfter(cs, a, tables.Current(a))
      ensures NoCleanup(cs) ==> NothingDangles(cs, |cs|)
    {
      oks := [];
      for i := 0 to |cs|
        invariant Shows(HappenAll(cs[..i])) && |oks| == i && ResultsAre(oks, cs)
      {
        PrefixChange(cs, i);
        StoredAgree(cs[..i]);
        var ok := Change(cs[i], HappenAll(cs[..i]));
        OneMoreResult(oks, cs, ok);
        oks := oks + [ok];
      }
      assert cs[..|cs|] == cs;
      SameUntilDangling(cs, |cs|);
      if NothingDangles(cs, |cs|) {
        AllCurrent(cs);
      }
      if NoCleanup(cs) {
        NothingDanglesWithoutCleanup(cs);
      }
    }

    /** What is shown is so of every author. */
    lemma AllCurrent(cs: seq<Change>)
      requires Shows(ApplyAll(cs))
      ensures forall a :: IsCurrentAfter(cs, a, tables.Current(a))
    {
      forall a ensures IsCurrentAfter(cs, a, tables.Current(a)) {
        CurrentSince(cs, a);
        var b := ApplyAll(cs);
        assert AnswersFor(tables.publicKeys, tables.events, tables.contactsEvents, tables.contactsFollowees, b, a);
      }
    }

    /** Tables that have seen the same events since then answer alike, whatever came before and in which order. */
    lemma SameAnswers(other: ContactsHandler, cs: seq<Change>, ds: seq<Change>, author: string)
      requires Shows(ApplyAll(cs)) && other.Shows(ApplyAll(ds))
      requires SameSince(cs, ds, author) && DistinctSince(cs, author)
      ensures tables.Current(author) == other.tables.Current(author)
      ensures tables.Current(author).Some? ==> tables.Followees(author) == other.tables.Followees(author)
    {
      var b, c := ApplyAll(cs), ApplyAll(ds);
      ConvergeSince(cs, ds, author);
      FolloweesOfCurrent(cs, author);
      FolloweesOfCurrent(ds, author);
      assert AnswersFor(tables.publicKeys, tables.events, tables.contactsEvents, tables.contactsFollowees, b, author);
      var others := other.tables;
      assert AnswersFor(others.publicKeys, others.events, others.contactsEvents, others.contactsFollowees, c, author);
    }

    method StoreChange(e: Event, ghost b: Book)
      requires Shows(b) && (e.id in b.stored ==> b.stored[e.id] == e)
      modifies tables`eventIds, tables`events
      ensures Shows(Happens(b, Store(e)))
    {
      tables.StoreEvent(e);
      if e.id !in b.stored {
        AnswersAfterStore(tables.publicKeys, old(tables.eventIds), old(tables.events), tables.events,
                          tables.contactsEvents, tables.contactsFollowees, b, e);
      }
    }

    method DeleteChange(gone: set<string>, ghost b: Book)
      requires Shows(b)
      modifies tables`eventIds, tables`events
      ensures Shows(Happens(b, Forget(gone)))
    {
      ghost var b' := Happens(b, Forget(gone));
      tables.DeleteEvents(gone);
      assert tables.StoredEvents() == b'.stored && tables.eventIds == b'.rows && b'.relays == b.relays by {
        ForgottenBook(b, gone);
      }
      assert Answer(b') by {
        AnswersAfterDelete(tables.publicKeys, old(tables.events), tables.events, tables.contactsEvents,
                           tables.contactsFollowees, b, gone);
      }
    }
  }

  /** The results are those of the changes. */
  ghost predicate ResultsAre(oks: seq<bool>, cs: seq<Change>) {
    |oks| <= |cs| && forall i :: 0 <= i < |oks| ==> (oks[i] <==> Succeeds(HappenAll(cs[..i]), cs[i]))
  }

  lemma OneMoreResult(oks: seq<bool>, cs: seq<Change>, ok: bool)
    requires ResultsAre(oks, cs) && |oks| < |cs| && (ok <==> Succeeds(HappenAll(cs[..|oks|]), cs[|oks|]))
    ensures ResultsAre(oks + [ok], cs)
  {
  }

  lemma EmptyAnswers()
    ensures Answers(map[], map[], map[], {}, EMPTY) && StoredIn(map[], map[]) == EMPTY.stored
  {
  }

  method EmptyTables() returns (h: ContactsHandler)
    ensures fresh(h) && fresh(h.tables) && fresh(h.relayTables) && h.Shows(EMPTY)
  {
    var tables := new ContactTables();
    var relayTables := new RelayTables();
    h := new ContactsHandler(tables, relayTables);
    EmptyAnswers();
  }
}
