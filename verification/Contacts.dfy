/** Contact lists: which event is an author's current one, and whom it says the author follows. */
module Contacts {
  import opened Sequences
  import opened Wrappers

  datatype Tag = Tag(name: string, value: string)

  /** createdAt is in whole seconds. */
  datatype Event = Event(id: string, author: string, kind: int, createdAt: int, tags: seq<Tag>)

  const CONTACTS_KIND: int := 3
  const PROFILE_TAG: string := "p"

  // ---------------------------------------------------------------- public keys

  predicate IsHexDigit(c: char) {
    '0' <= c <= '9' || 'a' <= c <= 'f' || 'A' <= c <= 'F'
  }

  function Lower(s: string): (r: string)
    ensures |r| == |s| && forall i :: 0 <= i < |s| ==> r[i] == if 'A' <= s[i] <= 'F' then s[i] - 'A' + 'a' else s[i]
  {
    if s == [] then []
    else Lower(s[..|s| - 1]) + [if 'A' <= s[|s| - 1] <= 'F' then s[|s| - 1] - 'A' + 'a' else s[|s| - 1]]
  }

  /** NewPublicKeyFromHex: 32 bytes in hexadecimal, kept in lower case. */
  function ParseKey(s: string): Option<string> {
    if |s| == 64 && forall i :: 0 <= i < |s| ==> IsHexDigit(s[i]) then Some(Lower(s)) else None
  }

  /** The number that a hexadecimal digit stands for. */
  function DigitValue(c: char): int {
    if c <= '9' then c as int - 48 else if c <= 'F' then c as int - 55 else c as int - 87
  }

  /** Hexadecimal digits with letters of either case, and with small letters only. */
  ghost predicate IsHex(s: string) {
    forall i :: 0 <= i < |s| ==> '0' <= s[i] <= '9' || 'a' <= s[i] <= 'f' || 'A' <= s[i] <= 'F'
  }

  ghost predicate IsLowerHex(s: string) {
    forall i :: 0 <= i < |s| ==> '0' <= s[i] <= '9' || 'a' <= s[i] <= 'f'
  }

  /** They stand for the same bytes. */
  ghost predicate SameBytes(s: string, t: string) {
    |s| == |t| && forall i :: 0 <= i < |s| ==> DigitValue(s[i]) == DigitValue(t[i])
  }

  /** A string is a key iff it is 64 hexadecimal digits; the key is the same bytes in small letters. */
  lemma ParsedKeyIs(s: string)
    ensures ParseKey(s).Some? <==> |s| == 64 && IsHex(s)
    ensures ParseKey(s).Some? ==> IsLowerHex(ParseKey(s).value) && SameBytes(ParseKey(s).value, s)
  {
    if ParseKey(s).Some? {
      forall i | 0 <= i < |s| ensures DigitValue(Lower(s)[i]) == DigitValue(s[i]) {
        assert IsHexDigit(s[i]);
      }
    }
  }

  /** Two strings give the same key iff they are the same bytes, whatever the case of their letters. */
  lemma SameKeyIff(s: string, t: string)
    requires ParseKey(s).Some? && ParseKey(t).Some?
    ensures ParseKey(s) == ParseKey(t) <==> SameBytes(s, t)
  {
    ParsedKeyIs(s);
    ParsedKeyIs(t);
    var k, l := ParseKey(s).value, ParseKey(t).value;
    if SameBytes(s, t) {
      forall i | 0 <= i < |k| ensures k[i] == l[i] {
        assert DigitValue(k[i]) == DigitValue(s[i]) == DigitValue(t[i]) == DigitValue(l[i]);
      }
      assert k == l;
    }
  }

  // ---------------------------------------------------------------- extraction

  /** The valid keys of the profile tags. */
  ghost function KeysOf(tags: seq<Tag>): set<string> {
    set i | 0 <= i < |tags| && tags[i].name == PROFILE_TAG &&
      ParseKey(tags[i].value).Some? :: ParseKey(tags[i].value).value
  }

  ghost function Elements(s: seq<string>): set<string> {
    set i | 0 <= i < |s| :: s[i]
  }

  /** The elements of a set in some order. */
  method ListOf(values: set<string>) returns (r: seq<string>)
    ensures NoDuplicates(r) && Elements(r) == values
  {
    var todo := values;
    r := [];
    while todo != {}
      invariant NoDuplicates(r) && todo <= values && Elements(r) == values - todo
      decreases |todo|
    {
      var v :| v in todo;
      todo := todo - {v};
      assert v !in Elements(r);
      ghost var before := Elements(r);
      assert forall i :: 0 <= i < |r| ==> r[i] in before;
      r := r + [v];
      ElementsOfOneMore(r[..|r| - 1], v);
      assert r[..|r| - 1] + [v] == r;
    }
  }

  lemma ElementsOfOneMore(s: seq<string>, v: string)
    ensures Elements(s + [v]) == Elements(s) + {v}
  {
    assert forall i :: 0 <= i < |s| ==> (s + [v])[i] == s[i];
    assert (s + [v])[|s|] == v;
  }

  lemma KeysOfAre(tags: seq<Tag>, key: string)
    ensures key in KeysOf(tags) <==> exists i :: 0 <= i < |tags| && tags[i].name == "p" &&
                                               ParseKey(tags[i].value) == Some(key)
  {
  }

  /** extractFromContacts: tags that are no valid key are skipped, a key named twice counts once. */
  method ExtractFromContacts(e: Event) returns (r: Option<seq<string>>)
    ensures r.Some? <==> e.kind == 3
    ensures r.Some? ==> NoDuplicates(r.value) && Elements(r.value) == KeysOf(e.tags)
    ensures r.Some? ==> forall key :: key in Elements(r.value) <==>
              exists i :: 0 <= i < |e.tags| && e.tags[i].name == "p" && ParseKey(e.tags[i].value) == Some(key)
  {
    if e.kind != CONTACTS_KIND {
      return None;
    }
    var results: set<string> := {};
    for i := 0 to |e.tags|
      invariant results == KeysOf(e.tags[..i])
    {
      KeysOfOneMore(e.tags, i);
      if e.tags[i].name == PROFILE_TAG {
        var key := ParseKey(e.tags[i].value);
        if key.Some? {
          results := results + {key.value};
        }
      }
    }
    assert e.tags[..|e.tags|] == e.tags;
    forall key {
      KeysOfAre(e.tags, key);
    }
    var list := ListOf(results);
    return Some(list);
  }

  lemma KeysOfOneMore(tags: seq<Tag>, i: nat)
    requires i < |tags|
    ensures KeysOf(tags[..i + 1]) == KeysOf(tags[..i]) +
            if tags[i].name == PROFILE_TAG && ParseKey(tags[i].value).Some? then {ParseKey(tags[i].value).value} else {}
  {
    var t := tags[..i + 1];
    assert forall j :: 0 <= j < i ==> t[j] == tags[..i][j];
    assert t[i] == tags[i];
    forall k | k in KeysOf(tags[..i]) ensures k in KeysOf(t) {
      var j :| 0 <= j < i && tags[..i][j].name == PROFILE_TAG && ParseKey(tags[..i][j].value).Some?
               && ParseKey(tags[..i][j].value).value == k;
      assert t[j] == tags[..i][j];
    }
  }

  // ---------------------------------------------------------------- the current event over a run

  function ShouldReplaceContactsEvent(current: Event, candidate: Event): Result<bool> {
    if current.kind != CONTACTS_KIND || candidate.kind != CONTACTS_KIND then Err
    else Ok(ShouldReplace(current, candidate))
  }

  predicate ShouldReplace(current: Event, candidate: Event) {
    candidate.createdAt > current.createdAt
  }

  /** The current contacts event of each author after one more processed event. */
  function Replace(current: map<string, Event>, e: Event): map<string, Event> {
    if e.kind == CONTACTS_KIND && (e.author !in current || ShouldReplace(current[e.author], e))
    then current[e.author := e]
    else current
  }

  function ReplaceAll(current: map<string, Event>, es: seq<Event>): map<string, Event> {
    if es == [] then current else Replace(ReplaceAll(current, es[..|es| - 1]), es[|es| - 1])
  }

  ghost predicate IsContactsOf(e: Event, author: string) {
    e.kind == 3 && e.author == author
  }

  /** e is the newest contacts event of the author among those processed. */
  ghost predicate IsNewest(es: seq<Event>, author: string, e: Event) {
    && e in es && IsContactsOf(e, author)
    && forall x :: x in es && IsContactsOf(x, author) ==> x.createdAt <= e.createdAt
  }

  lemma {:induction false} CurrentIsNewest(es: seq<Event>, author: string)
    ensures var c := ReplaceAll(map[], es);
            && (author in c <==> exists x :: x in es && IsContactsOf(x, author))
            && (author in c ==> IsNewest(es, author, c[author]))
  {
    if es != [] {
      var before := es[..|es| - 1];
      var last := es[|es| - 1];
      CurrentIsNewest(before, author);
      assert es == before + [last];
      assert forall x :: x in es <==> x in before || x == last;
      var c := ReplaceAll(map[], before);
      if author in c {
        assert IsNewest(before, author, c[author]);
      }
      if IsContactsOf(last, author) {
        assert last in es;
      }
    }
  }

  /** No two different contacts events of the author have the same time. */
  ghost predicate DistinctTimes(es: seq<Event>, author: string) {
    forall x, y | x in es && y in es && IsContactsOf(x, author) && IsContactsOf(y, author) ::
      x.createdAt == y.createdAt ==> x == y
  }

  /** Order, repetition and redelivery do not matter: the same events leave the same current event, the
      newest one, for every author whose events have distinct times. */
  lemma ContactsConverge(es: seq<Event>, fs: seq<Event>, author: string)
    requires forall x :: x in es <==> x in fs
    requires DistinctTimes(es, author)
    ensures var c, d := ReplaceAll(map[], es), ReplaceAll(map[], fs);
            (author in c <==> author in d) &&
              (author in c ==> c[author] == d[author] && IsNewest(es, author, c[author]))
  {
    CurrentIsNewest(es, author);
    CurrentIsNewest(fs, author);
  }

  /** Of events with the same time the one processed first stays, so without distinct times order matters. */
  lemma TiesGoToTheFirst(x: Event, y: Event)
    requires x.kind == y.kind == 3 && x.author == y.author && x.createdAt == y.createdAt && x != y
    ensures ReplaceAll(map[], [x, y])[x.author] == x && ReplaceAll(map[], [y, x])[x.author] == y
  {
    assert [x, y][..1] == [x] && [y, x][..1] == [y] && [x][..0] == [] && [y][..0] == [];
    assert ReplaceAll(map[], [x]) == map[x.author := x] && ReplaceAll(map[], [y]) == map[x.author := y];
  }

  // ---------------------------------------------------------------- runs with clean-ups

  /** Saving an event, processing a delivery of it (with the relay addresses it names), and deleting events. */
  datatype Change = Store(e: Event) | Process(e: Event, addresses: seq<string>) | Forget(ids: set<string>)

  /** What is stored and in which rows, each author's current contacts event, the row that the author's link
      points to and the followees, which both outlive it, and the relays. */
  datatype Book = Book(stored: map<string, Event>, rows: map<string, nat>, current: map<string, Event>,
                       links: map<string, nat>, followees: map<string, set<string>>, relays: set<string>)

  const EMPTY := Book(map[], map[], map[], map[], map[], {})

  /** The largest element; 0 of an empty set. */
  ghost function MaxOf(s: set<nat>): (m: nat)
    ensures (s != {} ==> m in s) && forall x :: x in s ==> x <= m
  {
    if s == {} then 0
    else
      var x :| x in s;
      assert s == (s - {x}) + {x};
      var rest := MaxOf(s - {x});
      if x > rest then x else rest
  }

  /** SQLite gives a new row the id after the largest one in the table. */
  ghost function NextRowOf(rows: map<string, nat>): (row: nat)
    ensures forall id :: id in rows ==> rows[id] < row
  {
    if rows == map[] then 1
    else
      assert forall id :: id in rows ==> rows[id] in rows.Values;
      assert exists id :: id in rows;
      MaxOf(rows.Values) + 1
  }

  predicate Replaces(b: Book, e: Event) {
    e.kind == CONTACTS_KIND && (e.author !in b.current || ShouldReplace(b.current[e.author], e))
  }

  ghost function Replaced(b: Book, e: Event): Book {
    if Replaces(b, e)
    then
      b.(current := b.current[e.author := e], followees := b.followees[e.author := KeysOf(e.tags)],
         links := if e.id in b.rows then b.links[e.author := b.rows[e.id]] else b.links)
    else b
  }

  /** An event's id is the hash of its content, so storing it again changes nothing; processing an event that
      is no longer stored fails or has nothing to do. */
  ghost function Apply(b: Book, c: Change): Book {
    match c
    case Store(e) =>
      if e.id in b.stored then b
      else b.(stored := b.stored[e.id := e], rows := b.rows[e.id := NextRowOf(b.rows)])
    case Process(e, addresses) =>
      if e.id !in b.stored then b
      else
        Replaced(b, e).(relays := b.relays + Elements(addresses))
    case Forget(ids) =>
      b.(stored := b.stored - ids, rows := b.rows - ids,
         current := map a | a in b.current && b.current[a].id !in ids :: b.current[a])
  }

  ghost function ApplyAll(cs: seq<Change>): Book {
    if cs == [] then EMPTY else Apply(ApplyAll(cs[..|cs| - 1]), cs[|cs| - 1])
  }

  /** Change i processes the author's contacts event e while it is stored. */
  ghost predicate Handles(cs: seq<Change>, i: nat, author: string, e: Event) {
    && i < |cs| && cs[i].Process? && cs[i].e == e && IsContactsOf(e, author)
    && e.id in ApplyAll(cs[..i]).stored
  }

  ghost predicate HandledSince(cs: seq<Change>, from: nat, author: string, e: Event) {
    exists i :: from <= i && Handles(cs, i, author, e)
  }

  ghost predicate AnySince(cs: seq<Change>, from: nat, author: string) {
    exists e :: HandledSince(cs, from, author, e)
  }

  ghost predicate TakesCurrent(b: Book, c: Change, author: string) {
    c.Forget? && author in b.current && b.current[author].id in c.ids
  }

  /** The changes up to the last clean-up that took the author's current event; 0 if there was none. */
  ghost function LastTaken(cs: seq<Change>, author: string): (from: nat)
    ensures from <= |cs|
  {
    if cs == [] then 0
    else if TakesCurrent(ApplyAll(cs[..|cs| - 1]), cs[|cs| - 1], author) then |cs|
    else LastTaken(cs[..|cs| - 1], author)
  }

  lemma HandledInPrefix(cs: seq<Change>, from: nat, author: string, e: Event)
    requires cs != []
    ensures var n := |cs| - 1;
            HandledSince(cs, from, author, e) <==>
              HandledSince(cs[..n], from, author, e) || (from <= n && Handles(cs, n, author, e))
  {
    var n := |cs| - 1;
    forall i: nat | i < n ensures Handles(cs, i, author, e) <==> Handles(cs[..n], i, author, e) {
      assert cs[..n][..i] == cs[..i];
    }
    if i: nat :| from <= i && Handles(cs, i, author, e) {
      assert i < n ==> Handles(cs[..n], i, author, e);
    }
    if i: nat :| from <= i && Handles(cs[..n], i, author, e) {
      assert Handles(cs, i, author, e);
    }
  }

  /** e is a newest one of the author's events processed since then. */
  ghost predicate NewestSince(cs: seq<Change>, from: nat, author: string, e: Event) {
    && HandledSince(cs, from, author, e)
    && forall x :: HandledSince(cs, from, author, x) ==> x.createdAt <= e.createdAt
  }

  /** In every run the current event is a newest one of those processed since the last clean-up that took the
      author's current event, and there is none iff none was. */
  lemma {:induction false} CurrentSince(cs: seq<Change>, author: string)
    ensures var current := ApplyAll(cs).current;
            var from := LastTaken(cs, author);
            && (author in current <==> AnySince(cs, from, author))
            && (author in current ==> NewestSince(cs, from, author, current[author]))
  {
    if cs == [] {
      return;
    }
    var n := |cs| - 1;
    var before := ApplyAll(cs[..n]);
    CurrentSince(cs[..n], author);
    var from := LastTaken(cs, author);
    forall e ensures HandledSince(cs, from, author, e) <==>
                     HandledSince(cs[..n], from, author, e) || (from <= n && Handles(cs, n, author, e)) {
      HandledInPrefix(cs, from, author, e);
    }
    if TakesCurrent(before, cs[n], author) {
      assert forall e :: !HandledSince(cs, from, author, e);
    } else {
      assert from == LastTaken(cs[..n], author);
      CurrentStep(cs, author);
    }
  }

  /** One more change that does not take the author's current event. */
  lemma CurrentStep(cs: seq<Change>, author: string)
    requires cs != [] && !TakesCurrent(ApplyAll(cs[..|cs| - 1]), cs[|cs| - 1], author)
    requires var n := |cs| - 1;
             var current := ApplyAll(cs[..n]).current;
             var from := LastTaken(cs, author);
             && (author in current <==> AnySince(cs[..n], from, author))
             && (author in current ==> NewestSince(cs[..n], from, author, current[author]))
    requires var n, from := |cs| - 1, LastTaken(cs, author);
             forall e :: HandledSince(cs, from, author, e) <==>
                         HandledSince(cs[..n], from, author, e) || (from <= n && Handles(cs, n, author, e))
    ensures var current := ApplyAll(cs).current;
            var from := LastTaken(cs, author);
            && (author in current <==> AnySince(cs, from, author))
            && (author in current ==> NewestSince(cs, from, author, current[author]))
  {
    var n := |cs| - 1;
    var before, current := ApplyAll(cs[..n]).current, ApplyAll(cs).current;
    var from := LastTaken(cs, author);
    assert from <= n;
    if cs[n].Process? && Handles(cs, n, author, cs[n].e) {
      assert HandledSince(cs, from, author, cs[n].e);
      assert author in current;
    } else {
      assert author in current <==> author in before;
      assert author in before ==> current[author] == before[author];
      assert forall e :: !Handles(cs, n, author, e);
    }
  }

  lemma SinceTheStart(cs: seq<Change>, from: nat, author: string, e: Event)
    requires HandledSince(cs, from, author, e)
    ensures HandledSince(cs, 0, author, e)
  {
    var i: nat :| from <= i && Handles(cs, i, author, e);
    assert 0 <= i;
  }

  /** The newest event of the whole run is the current one exactly when a newest one was processed since the
      last clean-up that took the author's current event. */
  lemma NewestWinsIff(cs: seq<Change>, author: string)
    ensures var current := ApplyAll(cs).current;
            (author in current && NewestSince(cs, 0, author, current[author]))
            <==> exists e :: HandledSince(cs, LastTaken(cs, author), author, e) && NewestSince(cs, 0, author, e)
  {
    CurrentSince(cs, author);
    var current, from := ApplyAll(cs).current, LastTaken(cs, author);
    if e :| HandledSince(cs, from, author, e) && NewestSince(cs, 0, author, e) {
      assert AnySince(cs, from, author);
      SinceTheStart(cs, from, author, current[author]);
    }
  }

  /** Without clean-ups it always is. */
  lemma NewestWinsWithoutCleanup(cs: seq<Change>, author: string)
    requires NoCleanup(cs)
    ensures var current := ApplyAll(cs).current;
            && (author in current <==> AnySince(cs, 0, author))
            && (author in current ==> NewestSince(cs, 0, author, current[author]))
  {
    NoneTakenWithoutCleanup(cs, author);
    CurrentSince(cs, author);
  }

  /** Two runs in which the same events were processed since then agree, whatever came before, in whatever
      order and how often, if those events have distinct times. */
  lemma ConvergeSince(cs: seq<Change>, ds: seq<Change>, author: string)
    requires SameSince(cs, ds, author) && DistinctSince(cs, author)
    ensures var c, d := ApplyAll(cs).current, ApplyAll(ds).current;
            (author in c <==> author in d) && (author in c ==> c[author] == d[author])
  {
    CurrentSince(cs, author);
    CurrentSince(ds, author);
    var c, d := ApplyAll(cs).current, ApplyAll(ds).current;
    if author in c {
      assert HandledSince(ds, LastTaken(ds, author), author, c[author]);
      assert HandledSince(cs, LastTaken(cs, author), author, d[author]);
    }
    if author in d {
      assert HandledSince(cs, LastTaken(cs, author), author, d[author]);
    }
  }

  ghost predicate SameSince(cs: seq<Change>, ds: seq<Change>, author: string) {
    forall e :: HandledSince(cs, LastTaken(cs, author), author, e) <==>
      HandledSince(ds, LastTaken(ds, author), author, e)
  }

  ghost predicate DistinctSince(cs: seq<Change>, author: string) {
    var k := LastTaken(cs, author);
    forall x, y | HandledSince(cs, k, author, x) && HandledSince(cs, k, author, y) ::
      x.createdAt == y.createdAt ==> x == y
  }

  /** The followees are those of the current event, as long as there is one. */
  lemma {:induction false} FolloweesOfCurrent(cs: seq<Change>, author: string)
    ensures var b := ApplyAll(cs);
            author in b.current ==> author in b.followees && b.followees[author] == KeysOf(b.current[author].tags)
  {
    if cs != [] {
      FolloweesOfCurrent(cs[..|cs| - 1], author);
    }
  }

  /** A run in which the newest does not win: it is cleaned up, and an older one is delivered again. The
      author's followees are then those of the older event. */
  lemma OlderComesBack(newer: Event, older: Event)
    requires newer.kind == older.kind == 3 && newer.author == older.author
    requires older.createdAt < newer.createdAt
    requires newer.id != older.id
    ensures var cs := [Store(older), Store(newer), Process(newer, []), Forget({newer.id}), Process(older, [])];
            && ApplyAll(cs[..3]).current == map[newer.author := newer]
            && ApplyAll(cs[..4]).current == map[] &&
              ApplyAll(cs[..4]).followees == map[newer.author := KeysOf(newer.tags)]
            && ApplyAll(cs).current == map[older.author := older]
  {
    var cs := [Store(older), Store(newer), Process(newer, []), Forget({newer.id}), Process(older, [])];
    assert cs[..0] == [] && cs[..1][..0] == cs[..0] && cs[..2][..1] == cs[..1] && cs[..3][..2] == cs[..2] &&
           cs[..4][..3] == cs[..3];
    var b1, b2, b3, b4 := ApplyAll(cs[..1]), ApplyAll(cs[..2]), ApplyAll(cs[..3]), ApplyAll(cs[..4]);
    assert ApplyAll(cs[..0]) == EMPTY && b1 == Apply(EMPTY, Store(older));
    assert b1.stored == map[older.id := older] && b1.current == map[] && b1.followees == map[];
    assert b2.stored == map[older.id := older, newer.id := newer] && b2.current == map[] && b2.followees == map[];
    assert b3.stored == b2.stored && b3.current == map[newer.author := newer];
    assert b3.followees == map[newer.author := KeysOf(newer.tags)];
    assert b4.stored == map[older.id := older] && b4.current == map[] && b4.followees == b3.followees;
    assert cs[..5] == cs;
  }

  /** What is stored or was loaded under an id is always the same event. */
  ghost predicate IdsAreHashes(cs: seq<Change>) {
    forall i :: 0 <= i < |cs| && !cs[i].Forget? ==>
      var stored := ApplyAll(cs[..i]).stored;
      cs[i].e.id in stored ==> stored[cs[i].e.id] == cs[i].e
  }

  // ---------------------------------------------------------------- rows that are used again

  /** The event to be stored gets a row that some author's link still points to. */
  ghost predicate LinkDangles(b: Book, c: Change) {
    c.Store? && c.e.id !in b.stored && exists a :: a in b.links && b.links[a] == NextRowOf(b.rows)
  }

  /** Another author's link has the event's row. */
  ghost predicate LinkTaken(b: Book, e: Event) {
    e.id in b.rows && exists a :: a in b.links && a != e.author && b.links[a] == b.rows[e.id]
  }

  /** Processing a contacts event fails: the author's current event is of another kind, or it should be replaced
      by an event that is no longer stored or whose row another author's link has. */
  ghost predicate Fails(b: Book, e: Event) {
    && e.kind == CONTACTS_KIND
    && (if e.author in b.current && b.current[e.author].kind != CONTACTS_KIND then true
        else Replaces(b, e) && (e.id !in b.stored || LinkTaken(b, e)))
  }

  /** An event that is stored becomes the current one of those whose links point to its row. */
  ghost function TakenOver(b: Book, e: Event): Book {
    if e.id !in b.rows then b
    else
      b.(current := map a | a in b.current.Keys + b.links.Keys &&
                            ((a in b.links && b.links[a] == b.rows[e.id]) || a in b.current) ::
           if a in b.links && b.links[a] == b.rows[e.id] then e else b.current[a])
  }

  /** What a change really does. */
  ghost function Happens(b: Book, c: Change): Book {
    match c
    case Store(e) => if LinkDangles(b, c) then TakenOver(Apply(b, c), e) else Apply(b, c)
    case Process(e, _) => if Fails(b, e) then b else Apply(b, c)
    case Forget(_) => Apply(b, c)
  }

  ghost function HappenAll(cs: seq<Change>): Book {
    if cs == [] then EMPTY else Happens(HappenAll(cs[..|cs| - 1]), cs[|cs| - 1])
  }

  /** A delivery is processed without an error. */
  ghost predicate Succeeds(b: Book, c: Change) {
    c.Process? ==> (c.e.id in b.stored || c.addresses == []) && !Fails(b, c.e)
  }

  lemma {:induction false} StoredAgree(cs: seq<Change>)
    ensures HappenAll(cs).stored == ApplyAll(cs).stored && HappenAll(cs).rows == ApplyAll(cs).rows
  {
    if cs != [] {
      var before := cs[..|cs| - 1];
      StoredAgree(before);
      StoredStep(HappenAll(before), ApplyAll(before), cs[|cs| - 1]);
    }
  }

  lemma StoredStep(b: Book, b': Book, c: Change)
    requires b.stored == b'.stored && b.rows == b'.rows
    ensures Happens(b, c).stored == Apply(b', c).stored && Happens(b, c).rows == Apply(b', c).rows
  {
  }

  /** It is change i of the run that fills such a row. */
  ghost predicate DanglesAt(cs: seq<Change>, i: nat) {
    i < |cs| && LinkDangles(ApplyAll(cs[..i]), cs[i])
  }

  ghost predicate NothingDangles(cs: seq<Change>, n: nat) {
    forall i: nat :: i < n ==> !DanglesAt(cs, i)
  }

  ghost predicate NoCleanup(cs: seq<Change>) {
    forall i :: 0 <= i < |cs| ==> !cs[i].Forget?
  }

  // What runs keep in which nothing dangles.

  /** Stored events have rows of their own, each link that points to a row of a stored event points to an event
      of its author's, and current events are contacts events. */
  ghost predicate OwnLinks(b: Book) {
    && b.rows.Keys == b.stored.Keys
    && (forall i, j :: i in b.rows && j in b.rows && b.rows[i] == b.rows[j] ==> i == j)
    && (forall a, id :: a in b.links && id in b.rows && b.links[a] == b.rows[id] ==> b.stored[id].author == a)
    && (forall a :: a in b.current ==> b.current[a].kind == CONTACTS_KIND)
  }

  lemma OwnLinksStep(b: Book, c: Change)
    requires OwnLinks(b) && !LinkDangles(b, c)
    requires !c.Forget? && c.e.id in b.stored ==> b.stored[c.e.id] == c.e
    ensures OwnLinks(Apply(b, c))
  {
  }

  /** When an event fills such a row, the current events are not what they should be. */
  lemma DanglingDiffers(b: Book, c: Change)
    requires OwnLinks(b) && LinkDangles(b, c)
    requires forall a :: a in b.current ==> a in b.links && exists id :: id in b.rows && b.rows[id] == b.links[a]
    ensures Happens(b, c) != Apply(b, c)
    ensures exists a :: a !in b.current && a in Happens(b, c).current && Happens(b, c).current[a] == c.e
  {
    var a :| a in b.links && b.links[a] == NextRowOf(b.rows);
    assert a !in b.current;
    assert a in Happens(b, c).current && Happens(b, c).current[a] == c.e;
  }

  /** Current events are stored, in the rows that the links point to. */
  ghost predicate CurrentIsLinked(b: Book) {
    forall a :: a in b.current ==>
      && a in b.links && b.current[a].id in b.rows && b.rows[b.current[a].id] == b.links[a]
  }

  lemma {:induction false} CurrentStaysLinked(cs: seq<Change>)
    ensures CurrentIsLinked(HappenAll(cs)) && HappenAll(cs).rows.Keys == HappenAll(cs).stored.Keys
  {
    if cs != [] {
      CurrentStaysLinked(cs[..|cs| - 1]);
      LinkedStep(HappenAll(cs[..|cs| - 1]), cs[|cs| - 1]);
    }
  }

  lemma LinkedStep(b: Book, c: Change)
    requires CurrentIsLinked(b) && b.rows.Keys == b.stored.Keys
    ensures CurrentIsLinked(Happens(b, c)) && Happens(b, c).rows.Keys == Happens(b, c).stored.Keys
  {
  }

  ghost predicate SameSoFar(cs: seq<Change>, n: nat) {
    n <= |cs| && forall i: nat :: i <= n ==> HappenAll(cs[..i]) == ApplyAll(cs[..i])
  }

  lemma PrefixChange(cs: seq<Change>, i: nat)
    requires i < |cs|
    ensures ApplyAll(cs[..i + 1]) == Apply(ApplyAll(cs[..i]), cs[i])
    ensures HappenAll(cs[..i + 1]) == Happens(HappenAll(cs[..i]), cs[i])
    ensures DanglesAt(cs, i) <==> LinkDangles(ApplyAll(cs[..i]), cs[i])
  {
    assert cs[..i + 1][..i] == cs[..i];
  }

  lemma {:induction false} SameUntilDangling(cs: seq<Change>, n: nat)
    requires IdsAreHashes(cs) && n <= |cs|
    ensures SameSoFar(cs, n) <==> NothingDangles(cs, n)
    ensures NothingDangles(cs, n) ==> OwnLinks(ApplyAll(cs[..n]))
  {
    if n > 0 {
      SameUntilDangling(cs, n - 1);
      PrefixChange(cs, n - 1);
      if NothingDangles(cs, n - 1) {
        OneMoreSame(cs, n);
      }
      assert SameSoFar(cs, n) ==> SameSoFar(cs, n - 1);
      assert NothingDangles(cs, n) ==> NothingDangles(cs, n - 1);
    } else {
      assert cs[..0] == [];
    }
  }

  lemma OneMoreSame(cs: seq<Change>, n: nat)
    requires IdsAreHashes(cs) && 0 < n <= |cs|
    requires NothingDangles(cs, n - 1) && SameSoFar(cs, n - 1) && OwnLinks(ApplyAll(cs[..n - 1]))
    ensures SameSoFar(cs, n) <==> NothingDangles(cs, n)
    ensures NothingDangles(cs, n) ==> OwnLinks(ApplyAll(cs[..n]))
  {
    var b, c := ApplyAll(cs[..n - 1]), cs[n - 1];
    assert b == HappenAll(cs[..n - 1]);
    PrefixChange(cs, n - 1);
    if LinkDangles(b, c) {
      CurrentStaysLinked(cs[..n - 1]);
      DanglingDiffers(b, c);
      assert DanglesAt(cs, n - 1);
    } else {
      OwnLinksStep(b, c);
      forall i: nat | i <= n ensures HappenAll(cs[..i]) == ApplyAll(cs[..i]) {
        assert i <= n - 1 || i == n;
      }
      forall i: nat | i < n ensures !DanglesAt(cs, i) {
        assert i < n - 1 || i == n - 1;
      }
    }
  }

  /** A run keeps the rule from its first change to its last iff no event is stored in a row that an author's link
      still points to. */
  lemma KeepsTheRuleIff(cs: seq<Change>)
    requires IdsAreHashes(cs)
    ensures (forall i: nat :: i <= |cs| ==> HappenAll(cs[..i]) == ApplyAll(cs[..i])) <==> NothingDangles(cs, |cs|)
  {
    SameUntilDangling(cs, |cs|);
  }

  ghost predicate AllLinked(b: Book) {
    forall a :: a in b.links ==> exists id :: id in b.rows && b.rows[id] == b.links[a]
  }

  lemma {:induction false} RowsAreOfStored(cs: seq<Change>)
    ensures ApplyAll(cs).rows.Keys == ApplyAll(cs).stored.Keys
  {
    if cs != [] {
      RowsAreOfStored(cs[..|cs| - 1]);
    }
  }

  lemma AllLinkedStep(b: Book, c: Change)
    requires AllLinked(b) && b.rows.Keys == b.stored.Keys && !c.Forget?
    ensures AllLinked(Apply(b, c))
  {
    var b' := Apply(b, c);
    forall a | a in b'.links ensures exists id :: id in b'.rows && b'.rows[id] == b'.links[a] {
      if a in b.links && b'.links[a] == b.links[a] {
        var id :| id in b.rows && b.rows[id] == b.links[a];
        assert id in b'.rows && b'.rows[id] == b'.links[a];
      } else {
        assert c.e.id in b'.rows && b'.rows[c.e.id] == b'.links[a];
      }
    }
  }

  lemma {:induction false} LinkedWithoutCleanup(cs: seq<Change>)
    requires NoCleanup(cs)
    ensures AllLinked(ApplyAll(cs))
  {
    if cs != [] {
      var before := cs[..|cs| - 1];
      LinkedWithoutCleanup(before);
      RowsAreOfStored(before);
      AllLinkedStep(ApplyAll(before), cs[|cs| - 1]);
    }
  }

  /** Without clean-ups no event ever gets such a row. */
  lemma NothingDanglesWithoutCleanup(cs: seq<Change>)
    requires NoCleanup(cs)
    ensures NothingDangles(cs, |cs|)
  {
    forall i: nat | i < |cs| ensures !DanglesAt(cs, i) {
      LinkedWithoutCleanup(cs[..i]);
    }
  }

  lemma {:induction false} NoneTakenWithoutCleanup(cs: seq<Change>, author: string)
    requires NoCleanup(cs)
    ensures LastTaken(cs, author) == 0
  {
    if cs != [] {
      NoneTakenWithoutCleanup(cs[..|cs| - 1], author);
    }
  }

  // ---------------------------------------------------------------- what that costs

  /** From here on the changes do not delete this event. */
  ghost predicate Spares(cs: seq<Change>, from: nat, id: string) {
    forall i :: from <= i < |cs| && cs[i].Forget? ==> id !in cs[i].ids
  }

  lemma BlockedStep(b: Book, c: Change, author: string)
    requires CurrentIsLinked(b) && b.rows.Keys == b.stored.Keys
    requires author in b.current && b.current[author].kind != CONTACTS_KIND
    requires c.Forget? ==> b.current[author].id !in c.ids
    ensures author in Happens(b, c).current && Happens(b, c).current[author] == b.current[author]
  {
  }

  /** An author whose link's row was filled with an event of another kind has no contacts event processed any
      more, whatever is delivered, until that event is deleted. */
  lemma {:induction false} BlockedByOtherKind(cs: seq<Change>, n: nat, author: string, e: Event)
    requires n <= |cs| && author in HappenAll(cs[..n]).current
    requires var c := HappenAll(cs[..n]).current[author]; c.kind != 3 && Spares(cs, n, c.id)
    requires IsContactsOf(e, author)
    ensures var b, b' := HappenAll(cs[..n]), HappenAll(cs);
            author in b'.current && b'.current[author] == b.current[author] && Fails(b', e)
    decreases |cs|
  {
    if n == |cs| {
      assert cs[..n] == cs;
    } else {
      var before := cs[..|cs| - 1];
      assert before[..n] == cs[..n];
      BlockedByOtherKind(before, n, author, e);
      CurrentStaysLinked(before);
      BlockedStep(HappenAll(before), cs[|cs| - 1], author);
    }
  }

  lemma OneMoreHappens(cs: seq<Change>, c: Change)
    ensures HappenAll(cs + [c]) == Happens(HappenAll(cs), c)
  {
    assert (cs + [c])[..|cs|] == cs;
  }

  lemma OnlyEventCleanedUp(gone: Event) returns (b: Book)
    requires gone.kind == 3
    ensures b == Happens(Happens(Happens(EMPTY, Store(gone)), Process(gone, [])), Forget({gone.id}))
    ensures b.stored == map[] && b.rows == map[] && b.current == map[]
    ensures b.links == map[gone.author := NextRowOf(map[])]
  {
    var row := NextRowOf(map[]);
    var b1 := Happens(EMPTY, Store(gone));
    assert b1.stored == map[gone.id := gone] && b1.rows == map[gone.id := row] && b1.links == map[];
    var b2 := Happens(b1, Process(gone, []));
    assert b2.rows == b1.rows && b2.links == map[gone.author := row] && b2.current == map[gone.author := gone];
    b := Happens(b2, Forget({gone.id}));
  }

  lemma NextTakesTheRow(b: Book, gone: Event, e: Event)
    requires b.stored == map[] && b.rows == map[] && b.current == map[]
    requires b.links == map[gone.author := NextRowOf(map[])]
    ensures LinkDangles(b, Store(e)) && Happens(b, Store(e)).current == map[gone.author := e]
    ensures e.author != gone.author && e.kind == 3 ==> Fails(Happens(b, Store(e)), e)
  {
    assert gone.author in b.links && b.links[gone.author] == NextRowOf(b.rows);
    var b' := Happens(b, Store(e));
    assert b'.rows == map[e.id := NextRowOf(map[])] && b'.links == b.links;
    assert gone.author in b'.links && b'.links[gone.author] == b'.rows[e.id];
  }

  /** An author's only event is cleaned up, and the next event gets the row that the author's link points to and
      becomes the author's current event, whosever it is. If it is another author's contacts event, processing it
      fails. */
  lemma RowIsUsedAgain(gone: Event, e: Event)
    requires gone.kind == 3
    ensures var b := HappenAll([Store(gone), Process(gone, []), Forget({gone.id})]);
            var b' := HappenAll([Store(gone), Process(gone, []), Forget({gone.id}), Store(e)]);
            && LinkDangles(b, Store(e)) && b'.current == map[gone.author := e]
            && (e.author != gone.author && e.kind == 3 ==> Fails(b', e))
  {
    var none: seq<Change> := [];
    var one := none + [Store(gone)];
    var two := one + [Process(gone, [])];
    var three := two + [Forget({gone.id})];
    OneMoreHappens(none, Store(gone));
    OneMoreHappens(one, Process(gone, []));
    OneMoreHappens(two, Forget({gone.id}));
    OneMoreHappens(three, Store(e));
    assert three == [Store(gone), Process(gone, []), Forget({gone.id})];
    assert three + [Store(e)] == [Store(gone), Process(gone, []), Forget({gone.id}), Store(e)];
    var b := OnlyEventCleanedUp(gone);
    NextTakesTheRow(b, gone, e);
  }
}
