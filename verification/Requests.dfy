/** The table of events to send: several SendEvent calls share one entry per event id. */
module Requests {
  import opened Sequences
  import opened Wrappers

  // ---------------------------------------------------------------- the table

  /** For each event id the channels of the calls that wait for its OK message, in order of arrival. */
  type Table = map<string, seq<nat>>

  function Scheduled(t: Table, id: string, ch: nat): Table {
    t[id := (if id in t then t[id] else []) + [ch]]
  }

  /** Without the first request on this channel. */
  function Without(requests: seq<nat>, ch: nat): seq<nat> {
    if requests == [] then []
    else if requests[0] == ch then requests[1..]
    else [requests[0]] + Without(requests[1..], ch)
  }

  function Removed(t: Table, id: string, ch: nat): Result<Table> {
    if id !in t then Err
    else if ch !in t[id] then Err
    else
      var left := Without(t[id], ch);
      Ok(if left == [] then t - {id} else t[id := left])
  }

  lemma {:induction false} WithoutIsRest(requests: seq<nat>, ch: nat)
    requires NoDuplicates(requests)
    ensures NoDuplicates(Without(requests, ch))
    ensures forall c :: c in Without(requests, ch) <==> c in requests && c != ch
  {
    if requests != [] {
      assert requests == [requests[0]] + requests[1..];
      WithoutIsRest(requests[1..], ch);
      var rest := Without(requests[1..], ch);
      assert forall i :: 0 <= i < |rest| ==> rest[i] in rest;
      assert requests[0] !in requests[1..];
    }
  }

  lemma {:induction false} WithoutAt(requests: seq<nat>, ch: nat, i: nat)
    requires i < |requests| && requests[i] == ch && forall j :: 0 <= j < i ==> requests[j] != ch
    ensures Without(requests, ch) == requests[..i] + requests[i + 1..]
  {
    if i == 0 {
      assert requests[..0] + requests[1..] == requests[1..];
    } else {
      WithoutAt(requests[1..], ch, i - 1);
      assert requests[..i] == [requests[0]] + requests[1..][..i - 1];
      assert requests[i + 1..] == requests[1..][i..];
      assert requests[..i] + requests[i + 1..] == [requests[0]] + (requests[1..][..i - 1] + requests[1..][i..]);
    }
  }

  // ---------------------------------------------------------------- the calls

  /** Where a SendEvent call is: it may still have to hand the event to the sending loop, it waits for its
      channel, it took a reply from it, its context ended first, or it has left the table. */
  datatype Phase = HandingOver | Waiting | Answered(ok: bool) | GivenUp | Gone(reply: Option<bool>)

  /** `life` numbers the lifetimes of the entry of an event id; `early` is set when the call gives up while
      it still has to hand the event over. */
  datatype Call = Call(id: string, first: bool, life: nat, phase: Phase, expired: bool, early: bool)

  datatype World = World(table: Table, calls: map<nat, Call>, lives: map<string, nat>, handed: seq<(string, nat)>)

  datatype Step =
    | Schedule(ch: nat, id: string)
    | Expire(ch: nat)
    | HandOver(ch: nat)
    | Reply(id: string, ok: bool, takers: set<nat>)
    | GiveUp(ch: nat)
    | Remove(ch: nat)

  const START := World(map[], map[], map[], [])

  predicate InTable(c: Call) {
    !c.phase.Gone?
  }

  function Life(w: World, id: string): nat {
    if id in w.lives then w.lives[id] else 0
  }

  predicate Enabled(w: World, s: Step) {
    match s
    case Schedule(ch, id) => ch !in w.calls
    case Expire(ch) => ch in w.calls
    case HandOver(ch) => ch in w.calls && w.calls[ch].phase.HandingOver?
    case Reply(id, ok, takers) => id in w.table ==>
      && (forall ch :: ch in takers ==> ch in w.table[id] && ch in w.calls && w.calls[ch].phase.Waiting?)
      && (forall ch :: ch in w.table[id] && ch !in takers && ch in w.calls ==> w.calls[ch].expired)
    case GiveUp(ch) => ch in w.calls && w.calls[ch].expired &&
      (w.calls[ch].phase.Waiting? || w.calls[ch].phase.HandingOver?)
    case Remove(ch) => ch in w.calls && (w.calls[ch].phase.Answered? || w.calls[ch].phase.GivenUp?)
  }

  function Next(w: World, s: Step): World
    requires Enabled(w, s)
  {
    match s
    case Schedule(ch, id) =>
      var first := id !in w.table;
      var life := if first then Life(w, id) + 1 else Life(w, id);
      w.(table := Scheduled(w.table, id, ch), lives := w.lives[id := life],
         calls := w.calls[ch := Call(id, first, life, if first then HandingOver else Waiting, false, false)])
    case Expire(ch) => w.(calls := w.calls[ch := w.calls[ch].(expired := true)])
    case HandOver(ch) =>
      w.(calls := w.calls[ch := w.calls[ch].(phase := Waiting)],
         handed := w.handed + [(w.calls[ch].id, w.calls[ch].life)])
    case Reply(id, ok, takers) =>
      if id !in w.table then w
      else w.(calls := map ch | ch in w.calls :: if ch in takers then w.calls[ch].(phase := Answered(ok))
              else w.calls[ch])
    case GiveUp(ch) => w.(calls :=
                          w.calls[ch := w.calls[ch].(phase := GivenUp, early := w.calls[ch].phase.HandingOver?)])
    case Remove(ch) =>
      var c := w.calls[ch];
      var reply := if c.phase.Answered? then Some(c.phase.ok) else None;
      w.(calls := w.calls[ch := c.(phase := Gone(reply))],
         table := match Removed(w.table, c.id, ch) case Ok(t) => t case Err => w.table)
  }

  ghost predicate Run(w: World, steps: seq<Step>, w': World)
    decreases |steps|
  {
    if steps == [] then w' == w
    else Enabled(w, steps[0]) && Run(Next(w, steps[0]), steps[1..], w')
  }

  // ---------------------------------------------------------------- what every step keeps

  /** An entry holds exactly the calls between scheduling and removal, once each. */
  ghost predicate TableHoldsCalls(w: World) {
    && (forall id :: id in w.table ==> w.table[id] != [] && NoDuplicates(w.table[id]))
    && (forall id, ch :: id in w.table && ch in w.table[id] ==>
        ch in w.calls && w.calls[ch].id == id && InTable(w.calls[ch]))
    && (forall ch :: ch in w.calls && InTable(w.calls[ch]) ==>
        w.calls[ch].id in w.table && ch in w.table[w.calls[ch].id])
  }

  ghost predicate IsFirst(w: World, ch: nat, id: string, life: nat) {
    ch in w.calls && w.calls[ch].first && w.calls[ch].id == id && w.calls[ch].life == life
  }

  ghost predicate HasFirst(w: World, id: string, life: nat) {
    exists ch :: IsFirst(w, ch, id, life)
  }

  /** Each lifetime of an entry has exactly one first call; the calls in the table are of the last lifetime. */
  ghost predicate OneFirst(w: World) {
    && (forall ch :: ch in w.calls ==> 1 <= w.calls[ch].life <= Life(w, w.calls[ch].id))
    && (forall ch :: ch in w.calls && InTable(w.calls[ch]) ==> w.calls[ch].life == Life(w, w.calls[ch].id))
    && (forall id, life :: 1 <= life <= Life(w, id) ==> HasFirst(w, id, life))
    && (forall id, life, a, b :: IsFirst(w, a, id, life) && IsFirst(w, b, id, life) ==> a == b)
  }

  /** The event is handed to the sending loop at most once in a lifetime, by the first call, and only if that
      one does not give up before. */
  ghost predicate HandedOnce(w: World) {
    && (NoDuplicates(w.handed))
    && (forall i :: 0 <= i < |w.handed| ==> w.handed[i].1 <= Life(w, w.handed[i].0))
    && (forall ch :: ch in w.calls ==> EarlyOk(w.calls[ch]))
    && (forall ch :: ch in w.calls && w.calls[ch].first ==>
          ((w.calls[ch].id, w.calls[ch].life) in w.handed <==> !NotHanded(w.calls[ch])))
  }

  /** The call has not handed its event over: it still has to, or it gave up before. */
  predicate NotHanded(c: Call) {
    c.phase.HandingOver? || c.early
  }

  predicate EarlyOk(c: Call) {
    && (NotHanded(c) ==> c.first)
    && (c.early ==> c.phase.GivenUp? || c.phase == Gone(None))
  }

  ghost predicate Inv(w: World) {
    TableHoldsCalls(w) && OneFirst(w) && HandedOnce(w) && forall ch :: ch in w.calls && w.calls[ch].phase.GivenUp? ==>
      w.calls[ch].expired
  }

  lemma ScheduleKeepsTable(w: World, ch: nat, id: string)
    requires TableHoldsCalls(w) && ch !in w.calls
    ensures TableHoldsCalls(Next(w, Schedule(ch, id)))
  {
  }

  lemma RemoveKeepsTable(w: World, ch: nat)
    requires TableHoldsCalls(w) && Enabled(w, Remove(ch))
    ensures TableHoldsCalls(Next(w, Remove(ch)))
  {
    WithoutIsRest(w.table[w.calls[ch].id], ch);
    var left := Without(w.table[w.calls[ch].id], ch);
    if left != [] {
      assert left[0] in left;
    }
  }

  lemma FirstsStay(w: World, w': World)
    requires OneFirst(w) && w'.lives == w.lives && w'.calls.Keys == w.calls.Keys
    requires forall ch :: ch in w.calls ==>
      var c, c' := w.calls[ch], w'.calls[ch];
      c'.id == c.id && c'.first == c.first && c'.life == c.life && (InTable(c') ==> InTable(c))
    ensures OneFirst(w')
  {
    forall id, life | 1 <= life <= Life(w', id) ensures HasFirst(w', id, life) {
      assert HasFirst(w, id, life);
      var ch :| IsFirst(w, ch, id, life);
      assert IsFirst(w', ch, id, life);
    }
    forall id, life, a, b | IsFirst(w', a, id, life) && IsFirst(w', b, id, life) ensures a == b {
      assert IsFirst(w, a, id, life) && IsFirst(w, b, id, life);
    }
  }

  lemma ScheduleKeepsFirsts(w: World, ch: nat, id: string)
    requires TableHoldsCalls(w) && OneFirst(w) && ch !in w.calls
    ensures OneFirst(Next(w, Schedule(ch, id)))
  {
    var w' := Next(w, Schedule(ch, id));
    assert forall other :: other != id ==> Life(w', other) == Life(w, other);
    assert Life(w', id) == if id in w.table then Life(w, id) else Life(w, id) + 1;
    if id in w.table {
      var c := w.table[id][0];
      assert c in w.table[id] && w.calls[c].life <= Life(w, id);
    }
    forall c | c in w'.calls ensures 1 <= w'.calls[c].life <= Life(w', w'.calls[c].id) {
      assert c != ch ==> c in w.calls && w'.calls[c] == w.calls[c];
    }
    forall i, life | 1 <= life <= Life(w', i) ensures HasFirst(w', i, life) {
      if i == id && life > Life(w, id) {
        assert IsFirst(w', ch, i, life);
      } else {
        assert HasFirst(w, i, life);
        var c :| IsFirst(w, c, i, life);
        assert IsFirst(w', c, i, life);
      }
    }
    forall i, life, a, b | IsFirst(w', a, i, life) && IsFirst(w', b, i, life) ensures a == b {
      if a != ch && b != ch {
        assert IsFirst(w, a, i, life) && IsFirst(w, b, i, life);
      }
    }
  }

  lemma ScheduleKeepsHanded(w: World, ch: nat, id: string)
    requires HandedOnce(w) && ch !in w.calls
    ensures HandedOnce(Next(w, Schedule(ch, id)))
  {
    var w' := Next(w, Schedule(ch, id));
    assert forall other :: Life(w, other) <= Life(w', other);
    forall c | c in w'.calls && w'.calls[c].first
      ensures (w'.calls[c].id, w'.calls[c].life) in w'.handed <==> !NotHanded(w'.calls[c])
    {
      assert c != ch ==> w'.calls[c] == w.calls[c];
    }
  }

  lemma HandOverKeepsHanded(w: World, ch: nat)
    requires OneFirst(w) && HandedOnce(w) && Enabled(w, HandOver(ch))
    ensures HandedOnce(Next(w, HandOver(ch)))
  {
    var w' := Next(w, HandOver(ch));
    var c := w.calls[ch];
    assert EarlyOk(c);
    assert forall id :: Life(w', id) == Life(w, id);
    forall other | other in w'.calls && w'.calls[other].first
      ensures (w'.calls[other].id, w'.calls[other].life) in w'.handed <==> !NotHanded(w'.calls[other])
    {
      if other != ch {
        assert w'.calls[other] == w.calls[other];
        if (w.calls[other].id, w.calls[other].life) == (c.id, c.life) {
          assert IsFirst(w, ch, c.id, c.life) && IsFirst(w, other, c.id, c.life);
        }
      }
    }
  }

  lemma OthersKeepHanded(w: World, w': World)
    requires HandedOnce(w) && w'.lives == w.lives && w'.handed == w.handed && w'.calls.Keys == w.calls.Keys
    requires forall ch :: ch in w'.calls ==>
      && (NotHanded(w'.calls[ch]) <==> NotHanded(w.calls[ch])) && EarlyOk(w'.calls[ch])
      && w'.calls[ch].first == w.calls[ch].first && w'.calls[ch].id == w.calls[ch].id &&
        w'.calls[ch].life == w.calls[ch].life
    ensures HandedOnce(w')
  {
    assert forall id :: Life(w', id) == Life(w, id);
  }

  lemma InvSchedule(w: World, ch: nat, id: string)
    requires Inv(w) && Enabled(w, Schedule(ch, id))
    ensures Inv(Next(w, Schedule(ch, id)))
  {
    ScheduleKeepsTable(w, ch, id);
    ScheduleKeepsFirsts(w, ch, id);
    ScheduleKeepsHanded(w, ch, id);
  }

  lemma InvRemove(w: World, ch: nat)
    requires Inv(w) && Enabled(w, Remove(ch))
    ensures Inv(Next(w, Remove(ch)))
  {
    var w' := Next(w, Remove(ch));
    RemoveKeepsTable(w, ch);
    FirstsStay(w, w');
    OthersKeepHanded(w, w');
  }

  lemma InvHandOver(w: World, ch: nat)
    requires Inv(w) && Enabled(w, HandOver(ch))
    ensures Inv(Next(w, HandOver(ch)))
  {
    var w' := Next(w, HandOver(ch));
    FirstsStay(w, w');
    HandOverKeepsHanded(w, ch);
  }

  /** A call may move on within the table in any way that does not hand the event over. */
  ghost predicate SameButPhases(w: World, w': World) {
    && w' == w.(calls := w'.calls) && w'.calls.Keys == w.calls.Keys
    && forall ch :: ch in w.calls ==>
         var c, c' := w.calls[ch], w'.calls[ch];
         && c' == c.(phase := c'.phase, expired := c'.expired, early := c'.early) && (InTable(c') <==> InTable(c))
         && (NotHanded(c') <==> NotHanded(c)) && EarlyOk(c')
         && (c'.phase.GivenUp? && c.expired ==> c'.expired) && (c'.phase.GivenUp? && !c.phase.GivenUp? ==> c'.expired)
  }

  lemma InvPhases(w: World, w': World)
    requires Inv(w) && SameButPhases(w, w')
    ensures Inv(w')
  {
    FirstsStay(w, w');
    OthersKeepHanded(w, w');
  }

  lemma InvReply(w: World, id: string, ok: bool, takers: set<nat>)
    requires Inv(w) && Enabled(w, Reply(id, ok, takers))
    ensures Inv(Next(w, Reply(id, ok, takers)))
  {
    var w' := Next(w, Reply(id, ok, takers));
    assert w'.calls.Keys == w.calls.Keys;
    InvPhases(w, w');
  }

  lemma InvTimeout(w: World, s: Step)
    requires Inv(w) && Enabled(w, s) && (s.Expire? || s.GiveUp?)
    ensures Inv(Next(w, s))
  {
    InvPhases(w, Next(w, s));
  }

  lemma InvNext(w: World, s: Step)
    requires Inv(w) && Enabled(w, s)
    ensures Inv(Next(w, s))
  {
    match s
    case Schedule(ch, id) => InvSchedule(w, ch, id);
    case Remove(ch) => InvRemove(w, ch);
    case HandOver(ch) => InvHandOver(w, ch);
    case Expire(_) => InvTimeout(w, s);
    case GiveUp(_) => InvTimeout(w, s);
    case Reply(id, ok, takers) => InvReply(w, id, ok, takers);
  }

  lemma {:induction false} InvRun(w: World, steps: seq<Step>, w': World)
    requires Inv(w) && Run(w, steps, w')
    ensures Inv(w')
    decreases |steps|
  {
    if steps != [] {
      InvNext(w, steps[0]);
      InvRun(Next(w, steps[0]), steps[1..], w');
    }
  }

  // ---------------------------------------------------------------- over whole runs

  ghost predicate InProgress(w: World, id: string, ch: nat) {
    ch in w.calls && w.calls[ch].id == id && InTable(w.calls[ch])
  }

  lemma EntryMeansCall(w: World, id: string)
    requires TableHoldsCalls(w)
    ensures id in w.table <==> exists ch :: InProgress(w, id, ch)
  {
    if id in w.table {
      assert w.table[id][0] in w.table[id];
      assert InProgress(w, id, w.table[id][0]);
    }
  }

  /** Whatever the interleaving, an event id has an entry iff some call for it has been scheduled and not
      removed, and the entry's requests are these calls once each. */
  lemma TableAgreesWithCalls(steps: seq<Step>, w: World, id: string)
    requires Run(START, steps, w)
    ensures id in w.table <==> exists ch :: InProgress(w, id, ch)
    ensures id in w.table ==> NoDuplicates(w.table[id]) && forall ch :: ch in w.table[id] <==> InProgress(w, id, ch)
  {
    InvRun(START, steps, w);
    EntryMeansCall(w, id);
  }

  /** In no run does a removal fail. */
  lemma RemovalsSucceed(steps: seq<Step>, w: World, ch: nat)
    requires Run(START, steps, w) && Enabled(w, Remove(ch))
    ensures Removed(w.table, w.calls[ch].id, ch).Ok?
  {
    InvRun(START, steps, w);
  }

  /** Every lifetime of an entry has exactly one call that was told it is the first, and that is how many
      times an event id had an entry. */
  lemma OneFirstPerLifetime(steps: seq<Step>, w: World, id: string, life: nat)
    requires Run(START, steps, w)
    ensures 1 <= life <= Life(w, id) <==> exists ch :: IsFirst(w, ch, id, life)
    ensures forall a, b :: IsFirst(w, a, id, life) && IsFirst(w, b, id, life) ==> a == b
  {
    InvRun(START, steps, w);
    if 1 <= life <= Life(w, id) {
      assert HasFirst(w, id, life);
    }
  }

  /** In no run is an event handed to the sending loop twice in one lifetime of its entry. */
  lemma NeverHandedTwice(steps: seq<Step>, w: World, i: nat, j: nat)
    requires Run(START, steps, w) && i < j < |w.handed|
    ensures w.handed[i] != w.handed[j]
  {
    InvRun(START, steps, w);
  }

  /** Exactly when the call that was told it is first gives up too early is the event left behind. */
  lemma GiveUpLosesEventIff(steps: seq<Step>, w: World, ch: nat)
    requires Run(START, steps, w) && Enabled(w, GiveUp(ch)) && w.calls[ch].first
    ensures (w.calls[ch].id, w.calls[ch].life) !in Next(w, GiveUp(ch)).handed <==> w.calls[ch].phase.HandingOver?
  {
    InvRun(START, steps, w);
  }

  /** The step is the early giving up of this call. */
  ghost predicate GivesUpEarly(w: World, s: Step, ch: nat) {
    s == GiveUp(ch) && Enabled(w, s) && w.calls[ch].phase.HandingOver?
  }

  /** It is step i of the run, taken in state v. */
  ghost predicate GaveUpAt(w: World, steps: seq<Step>, v: World, i: nat, ch: nat) {
    i < |steps| && Run(w, steps[..i], v) && GivesUpEarly(v, steps[i], ch)
  }

  lemma GaveUpLater(w: World, steps: seq<Step>, v: World, i: nat, ch: nat)
    requires steps != [] && Enabled(w, steps[0])
    ensures GaveUpAt(w, steps, v, i + 1, ch) <==> GaveUpAt(Next(w, steps[0]), steps[1..], v, i, ch)
  {
    if i + 1 < |steps| {
      assert steps[..i + 1][1..] == steps[1..][..i];
    }
  }

  /** A call is marked as early iff it did that at some step. */
  lemma {:induction false} EarlyIff(w: World, steps: seq<Step>, w': World, ch: nat)
    requires Run(w, steps, w') && (ch in w.calls ==> !w.calls[ch].early)
    ensures ch in w'.calls && w'.calls[ch].early <==> exists v: World, i :: GaveUpAt(w, steps, v, i, ch)
    decreases |steps|
  {
    if steps == [] {
      return;
    }
    var next := Next(w, steps[0]);
    assert Run(w, steps[..0], w);
    if ch in next.calls && next.calls[ch].early {
      assert GaveUpAt(w, steps, w, 0, ch);
      EarlyStays(next, steps[1..], w', ch);
      return;
    }
    EarlyIff(next, steps[1..], w', ch);
    if v: World, i: nat :| GaveUpAt(next, steps[1..], v, i, ch) {
      GaveUpLater(w, steps, v, i, ch);
    }
    if v: World, i: nat :| GaveUpAt(w, steps, v, i, ch) {
      assert i > 0;
      GaveUpLater(w, steps, v, i - 1, ch);
    }
  }

  /** Over every run: the event of a lifetime of an entry has not been handed to the sending loop iff its
      first call still has to do that, or gave up at some step when it still had to. */
  lemma NotHandedIff(steps: seq<Step>, w: World, id: string, life: nat, ch: nat)
    requires Run(START, steps, w) && IsFirst(w, ch, id, life)
    ensures (id, life) !in w.handed <==>
              w.calls[ch].phase.HandingOver? || exists v: World, i :: GaveUpAt(START, steps, v, i, ch)
  {
    InvRun(START, steps, w);
    EarlyIff(START, steps, w, ch);
  }

  predicate LeftEarly(c: Call) {
    c.early && (c.phase.GivenUp? || c.phase.Gone?)
  }

  lemma {:induction false} EarlyStays(w: World, steps: seq<Step>, w': World, ch: nat)
    requires Run(w, steps, w') && ch in w.calls && LeftEarly(w.calls[ch])
    ensures ch in w'.calls && LeftEarly(w'.calls[ch])
    decreases |steps|
  {
    if steps != [] {
      EarlyStays(Next(w, steps[0]), steps[1..], w', ch);
    }
  }

  /** After an OK message every call on the event has an answer or a context that is over. */
  lemma ReplyReachesEveryone(steps: seq<Step>, w: World, id: string, ok: bool, takers: set<nat>, ch: nat)
    requires Run(START, steps, w) && Enabled(w, Reply(id, ok, takers)) && ch in w.calls
    requires w.calls[ch].id == id && InTable(w.calls[ch])
    ensures var c := Next(w, Reply(id, ok, takers)).calls[ch]; c.expired || c.phase == Answered(ok)
  {
    InvRun(START, steps, w);
    if ch in takers {
    }
  }

  predicate Told(w: World, ch: nat, ok: bool) {
    ch in w.calls && (w.calls[ch].phase == Answered(ok) || w.calls[ch].phase == Gone(Some(ok)))
  }

  lemma ToldByReply(w: World, s: Step, ch: nat, ok: bool)
    requires Inv(w) && Enabled(w, s) && Told(Next(w, s), ch, ok) && !Told(w, ch, ok)
    ensures s.Reply? && s.ok == ok && ch in s.takers && ch in w.calls && s.id == w.calls[ch].id
  {
    if s.Reply? && s.id in w.table && ch in s.takers {
      assert ch in w.table[s.id];
    }
  }

  ghost predicate RepliesTo(s: Step, id: string, ch: nat, ok: bool) {
    s.Reply? && s.id == id && s.ok == ok && ch in s.takers
  }

  /** What a call returns is what some OK message for its own event said. */
  lemma {:induction false} AnswersComeFromReplies(w: World, steps: seq<Step>, w': World, ch: nat, ok: bool)
    requires Inv(w) && Run(w, steps, w') && Told(w', ch, ok) && !Told(w, ch, ok)
    ensures exists i :: 0 <= i < |steps| && RepliesTo(steps[i], w'.calls[ch].id, ch, ok)
    decreases |steps|
  {
    InvNext(w, steps[0]);
    var next := Next(w, steps[0]);
    if Told(next, ch, ok) {
      ToldByReply(w, steps[0], ch, ok);
      IdsStay(w, steps, w', ch);
      assert RepliesTo(steps[0], w'.calls[ch].id, ch, ok);
    } else {
      AnswersComeFromReplies(next, steps[1..], w', ch, ok);
      var i :| 0 <= i < |steps[1..]| && RepliesTo(steps[1..][i], w'.calls[ch].id, ch, ok);
      assert RepliesTo(steps[i + 1], w'.calls[ch].id, ch, ok);
    }
  }

  /** Once a call has its answer it keeps it, also when it has left the table: that is what it returns. */
  lemma {:induction false} AnswersStay(w: World, steps: seq<Step>, w': World, ch: nat, ok: bool)
    requires Run(w, steps, w') && Told(w, ch, ok)
    ensures Told(w', ch, ok)
    decreases |steps|
  {
    if steps != [] {
      AnswersStay(Next(w, steps[0]), steps[1..], w', ch, ok);
    }
  }

  /** Step i of the run, taken in state v, is an OK message for the call's event that the call takes. */
  ghost predicate AnsweredAt(w: World, steps: seq<Step>, v: World, i: nat, ch: nat, ok: bool) {
    && i < |steps| && Run(w, steps[..i], v) && Enabled(v, steps[i])
    && ch in v.calls && RepliesTo(steps[i], v.calls[ch].id, ch, ok) && v.calls[ch].id in v.table
  }

  lemma AnsweredLater(w: World, steps: seq<Step>, v: World, i: nat, ch: nat, ok: bool)
    requires steps != [] && Enabled(w, steps[0])
    ensures AnsweredAt(w, steps, v, i + 1, ch, ok) <==> AnsweredAt(Next(w, steps[0]), steps[1..], v, i, ch, ok)
  {
    if i + 1 < |steps| {
      assert steps[..i + 1][1..] == steps[1..][..i];
    }
  }

  lemma ReplyTells(w: World, s: Step, ch: nat, ok: bool)
    requires Inv(w) && Enabled(w, s) && !Told(w, ch, ok)
    ensures Told(Next(w, s), ch, ok) <==> AnsweredAt(w, [s], w, 0, ch, ok)
  {
    assert [s][..0] == [];
    if Told(Next(w, s), ch, ok) {
      ToldByReply(w, s, ch, ok);
    }
  }

  /** A call has got an answer, or has returned it, iff at some step it took that answer from an OK message for its
      event. */
  lemma {:induction false} ToldIff(w: World, steps: seq<Step>, w': World, ch: nat, ok: bool)
    requires Inv(w) && Run(w, steps, w') && !Told(w, ch, ok)
    ensures Told(w', ch, ok) <==> exists v: World, i :: AnsweredAt(w, steps, v, i, ch, ok)
    decreases |steps|
  {
    if steps == [] {
      return;
    }
    var next := Next(w, steps[0]);
    InvNext(w, steps[0]);
    ReplyTells(w, steps[0], ch, ok);
    assert steps[..0] == [] && [steps[0]][..0] == [];
    assert AnsweredAt(w, steps, w, 0, ch, ok) <==> AnsweredAt(w, [steps[0]], w, 0, ch, ok);
    if Told(next, ch, ok) {
      AnswersStay(next, steps[1..], w', ch, ok);
      return;
    }
    ToldIff(next, steps[1..], w', ch, ok);
    if v: World, i: nat :| AnsweredAt(next, steps[1..], v, i, ch, ok) {
      AnsweredLater(w, steps, v, i, ch, ok);
    }
    if v: World, i: nat :| AnsweredAt(w, steps, v, i, ch, ok) {
      assert i > 0;
      AnsweredLater(w, steps, v, i - 1, ch, ok);
    }
  }

  /** What a call returns, over every run: an answer iff it took that answer at some step; without one, its context
      is over. */
  lemma ReturnsIff(steps: seq<Step>, w: World, ch: nat, ok: bool)
    requires Run(START, steps, w) && ch in w.calls && w.calls[ch].phase.Gone?
    ensures w.calls[ch].phase.reply == Some(ok) <==> exists v: World, i :: AnsweredAt(START, steps, v, i, ch, ok)
    ensures w.calls[ch].phase.reply == None ==> w.calls[ch].expired
  {
    ToldIff(START, steps, w, ch, ok);
    GoneAreAnsweredOrExpired(START, steps, w, ch);
  }

  /** A call that has no answer has given up because its context is over. */
  predicate LeftInTime(c: Call) {
    c.phase.GivenUp? || c.phase == Gone(None) ==> c.expired
  }

  lemma {:induction false} GoneAreAnsweredOrExpired(w: World, steps: seq<Step>, w': World, ch: nat)
    requires Run(w, steps, w') && (ch in w.calls ==> LeftInTime(w.calls[ch]))
    ensures ch in w'.calls ==> LeftInTime(w'.calls[ch])
    decreases |steps|
  {
    if steps != [] {
      GoneAreAnsweredOrExpired(Next(w, steps[0]), steps[1..], w', ch);
    }
  }

  lemma {:induction false} IdsStay(w: World, steps: seq<Step>, w': World, ch: nat)
    requires Run(w, steps, w') && ch in w.calls
    ensures ch in w'.calls && w'.calls[ch].id == w.calls[ch].id
    decreases |steps|
  {
    if steps != [] {
      IdsStay(Next(w, steps[0]), steps[1..], w', ch);
    }
  }

  lemma RunThen(w: World, s: Step, steps: seq<Step>, w': World)
    requires Enabled(w, s) && Run(Next(w, s), steps, w')
    ensures Run(w, [s] + steps, w')
  {
    assert ([s] + steps)[1..] == steps;
  }

  /** An event with a waiting call need not be handed over: the first call gives up before it does, and
      the others were told that they are not first. */
  lemma FirstMayGiveUp(id: string) returns (steps: seq<Step>, w: World)
    ensures Run(START, steps, w) && id in w.table && w.table[id] == [1] && w.handed == []
    ensures 1 in w.calls && w.calls[1].phase.Waiting? && !w.calls[1].expired
  {
    var w1 := Next(START, Schedule(0, id));
    var w2 := Next(w1, Schedule(1, id));
    assert id in w2.table && w2.table[id] == [0, 1];
    var w3 := Next(w2, Expire(0));
    var w4 := Next(w3, GiveUp(0));
    w := Next(w4, Remove(0));
    assert Without([0, 1], 0) == [1];
    steps := [];
    assert Run(w, steps, w);
    RunThen(w4, Remove(0), steps, w);
    steps := [Remove(0)] + steps;
    RunThen(w3, GiveUp(0), steps, w);
    steps := [GiveUp(0)] + steps;
    RunThen(w2, Expire(0), steps, w);
    steps := [Expire(0)] + steps;
    RunThen(w1, Schedule(1, id), steps, w);
    steps := [Schedule(1, id)] + steps;
    RunThen(START, Schedule(0, id), steps, w);
    steps := [Schedule(0, id)] + steps;
  }

  // ---------------------------------------------------------------- the connection's methods

  class RelayConnection {
    var eventsToSend: Table

    constructor ()
      ensures eventsToSend == map[]
    {
      eventsToSend := map[];
    }

    method ScheduleSendingEvent(id: string, ch: nat) returns (isFirst: bool)
      modifies this
      ensures eventsToSend == Scheduled(old(eventsToSend), id, ch)
      ensures isFirst <==> id !in old(eventsToSend)
    {
      if id in eventsToSend {
        eventsToSend := eventsToSend[id := eventsToSend[id] + [ch]];
        return false;
      } else {
        assert [] + [ch] == [ch];
        eventsToSend := eventsToSend[id := [ch]];
        return true;
      }
    }

    method RemoveEventChannel(id: string, ch: nat) returns (r: Result<()>)
      modifies this
      ensures match Removed(old(eventsToSend), id, ch)
              case Ok(t) => r.Ok? && eventsToSend == t
              case Err => r.Err? && eventsToSend == old(eventsToSend)
    {
      if id !in eventsToSend {
        return Err;
      }
      var requests := eventsToSend[id];
      for i := 0 to |requests|
        invariant eventsToSend == old(eventsToSend) && forall j :: 0 <= j < i ==> requests[j] != ch
      {
        if requests[i] == ch {
          WithoutAt(requests, ch, i);
          requests := requests[..i] + requests[i + 1..];
          eventsToSend := eventsToSend[id := requests];
          if |requests| == 0 {
            eventsToSend := eventsToSend - {id};
            assert eventsToSend == old(eventsToSend) - {id};
          }
          return Ok(());
        }
      }
      return Err;
    }

    /** Offers the reply to each request in turn; `done` are the channels whose contexts are over, where the
        reply may or may not be taken. */
    method PassSendEventResponseToChannel(id: string, done: set<nat>) returns (takers: set<nat>)
      ensures id !in eventsToSend ==> takers == {}
      ensures id in eventsToSend ==> takers <= (set ch | ch in eventsToSend[id])
      ensures id in eventsToSend ==> forall ch :: ch in eventsToSend[id] && ch !in takers ==> ch in done
    {
      takers := {};
      if id !in eventsToSend {
        return;
      }
      var requests := eventsToSend[id];
      for i := 0 to |requests|
        invariant takers <= (set ch | ch in eventsToSend[id])
        invariant forall j :: 0 <= j < i && requests[j] !in takers ==> requests[j] in done
      {
        var taken := true;
        if requests[i] in done {
          taken := *;
        }
        if taken {
          takers := takers + {requests[i]};
        }
      }
    }
  }
}
