/** The transaction runner: callers hand their transactions over one at a time, and may stop waiting for
    the result when their contexts end. `D` is whatever the database holds. */
module Transactions {
  import opened Sequences
  import opened Wrappers
  import P = Pipeline

  /** What TryRun returned. */
  datatype Reply = NoError | TransactionError | ContextError

  datatype Phase = Offering | Waiting | Told(reply: Reply)

  /** `fn` is what the callback does to the database; None is an error. */
  datatype Call<!D> = Call(fn: D -> Option<D>, phase: Phase, expired: bool)

  datatype Runner = Idle | Running(t: nat) | Replying(t: nat, ok: bool) | Stopped

  /** `taken` are the calls that were handed over; `committed` lists the commits in order. */
  datatype World<!D> = World(db: D, calls: map<nat, Call<D>>, runner: Runner, taken: set<nat>, committed: seq<nat>)

  datatype Step<!D> =
    | Submit(t: nat, fn: D -> Option<D>)
    | Expire(t: nat)
    | Take(t: nat)
    | Finish(ok: bool)
    | Deliver
    | Skip
    | GiveUp(t: nat)
    | Stop

  function Start<D>(db: D): World<D> {
    World(db, map[], Idle, {}, [])
  }

  ghost predicate Enabled<D>(w: World<D>, s: Step<D>) {
    match s
    case Submit(t, _) => t !in w.calls
    case Expire(t) => t in w.calls
    case Take(t) => w.runner.Idle? && t in w.calls && w.calls[t].phase.Offering?
    case Finish(ok) => w.runner.Running? && w.runner.t in w.calls && (ok ==> w.calls[w.runner.t].fn(w.db).Some?)
    case Deliver => w.runner.Replying? && w.runner.t in w.calls && w.calls[w.runner.t].phase.Waiting?
    case Skip => w.runner.Replying? && w.runner.t in w.calls && w.calls[w.runner.t].expired
    case GiveUp(t) => t in w.calls && w.calls[t].expired && !w.calls[t].phase.Told?
    case Stop => !w.runner.Running?
  }

  function WithPhase<D>(w: World<D>, t: nat, phase: Phase): World<D>
    requires t in w.calls
  {
    w.(calls := w.calls[t := w.calls[t].(phase := phase)])
  }

  ghost function Next<D>(w: World<D>, s: Step<D>): World<D>
    requires Enabled(w, s)
  {
    match s
    case Submit(t, fn) => w.(calls := w.calls[t := Call(fn, Offering, false)])
    case Expire(t) => w.(calls := w.calls[t := w.calls[t].(expired := true)])
    case Take(t) => WithPhase(w, t, Waiting).(runner := Running(t), taken := w.taken + {t})
    case Finish(ok) =>
      if ok then
        w.(db := w.calls[w.runner.t].fn(w.db).value, committed := w.committed + [w.runner.t],
           runner := Replying(w.runner.t, true))
      else w.(runner := Replying(w.runner.t, false))
    case Deliver => WithPhase(w, w.runner.t, Told(if w.runner.ok then NoError else TransactionError)).(runner := Idle)
    case Skip => w.(runner := Idle)
    case GiveUp(t) => WithPhase(w, t, Told(ContextError))
    case Stop => w.(runner := Stopped)
  }

  ghost predicate Run<D>(w: World<D>, steps: seq<Step<D>>, w': World<D>)
    decreases |steps|
  {
    if steps == [] then w' == w else Enabled(w, steps[0]) && Run(Next(w, steps[0]), steps[1..], w')
  }

  function Applied<D>(fn: D -> Option<D>, db: D): D {
    if fn(db).Some? then fn(db).value else db
  }

  /** The committed callbacks applied one after the other. */
  ghost function InOrder<D>(db: D, calls: map<nat, Call<D>>, committed: seq<nat>): D {
    if committed == [] then db
    else
      var before := InOrder(db, calls, committed[..|committed| - 1]);
      var t := committed[|committed| - 1];
      if t in calls then Applied(calls[t].fn, before) else before
  }

  lemma {:induction false} InOrderSame<D>(db: D, calls: map<nat, Call<D>>, calls': map<nat, Call<D>>,
                                          committed: seq<nat>)
    requires forall t :: t in committed ==> t in calls && t in calls' && calls'[t].fn == calls[t].fn
    ensures InOrder(db, calls', committed) == InOrder(db, calls, committed)
    decreases |committed|
  {
    if committed != [] {
      InOrderSame(db, calls, calls', committed[..|committed| - 1]);
      assert committed[|committed| - 1] in committed;
    }
  }

  /** What each caller is at, or was told, agrees with what became of its transaction. */
  ghost predicate CallOk<D>(w: World<D>, t: nat)
    requires t in w.calls
  {
    match w.calls[t].phase
    case Offering => t !in w.taken
    case Waiting => t in w.taken
    case Told(NoError) => t in w.committed
    case Told(TransactionError) => t in w.taken && t !in w.committed && w.runner != Running(t)
    case Told(ContextError) => true
  }

  ghost predicate RunnerOk<D>(w: World<D>) {
    match w.runner
    case Running(t) => t in w.taken && t !in w.committed
    case Replying(t, ok) => t in w.taken && (ok <==> t in w.committed)
    case _ => true
  }

  ghost predicate Inv<D>(db: D, w: World<D>) {
    && w.db == InOrder(db, w.calls, w.committed)
    && NoDuplicates(w.committed)
    && (forall t :: t in w.committed ==> t in w.taken) && w.taken <= w.calls.Keys
    && (forall t :: t in w.calls ==> CallOk(w, t)) && RunnerOk(w)
  }

  lemma InvFinish<D>(db: D, w: World<D>, ok: bool)
    requires Inv(db, w) && Enabled(w, Finish(ok))
    ensures Inv(db, Next(w, Finish(ok)))
  {
    var w' := Next(w, Finish(ok));
    if ok {
      assert w'.committed[..|w.committed|] == w.committed;
    }
    forall t | t in w'.calls ensures CallOk(w', t) {
      assert CallOk(w, t);
    }
  }

  lemma InvOther<D>(db: D, w: World<D>, s: Step<D>)
    requires Inv(db, w) && Enabled(w, s) && !s.Finish?
    ensures Inv(db, Next(w, s))
  {
    var w' := Next(w, s);
    InOrderSame(db, w.calls, w'.calls, w.committed);
    forall t | t in w'.calls ensures CallOk(w', t) {
      assert t in w.calls ==> CallOk(w, t);
    }
  }

  lemma InvNext<D>(db: D, w: World<D>, s: Step<D>)
    requires Inv(db, w) && Enabled(w, s)
    ensures Inv(db, Next(w, s))
  {
    if s.Finish? {
      InvFinish(db, w, s.ok);
    } else {
      InvOther(db, w, s);
    }
  }

  lemma {:induction false} InvRun<D>(db: D, w: World<D>, steps: seq<Step<D>>, w': World<D>)
    requires Inv(db, w) && Run(w, steps, w')
    ensures Inv(db, w')
    decreases |steps|
  {
    if steps != [] {
      InvNext(db, w, steps[0]);
      InvRun(db, Next(w, steps[0]), steps[1..], w');
    }
  }

  /** However calls, expiring contexts and the runner interleave, the database is what the committed
      callbacks make of it one after the other, none of them twice. */
  lemma Serial<D>(db: D, steps: seq<Step<D>>, w: World<D>)
    requires Run(Start(db), steps, w)
    ensures w.db == InOrder(db, w.calls, w.committed)
    ensures NoDuplicates(w.committed)
  {
    InvRun(db, Start(db), steps, w);
  }

  /** Nothing more will happen to this call's transaction. */
  ghost predicate Settled<D>(w: World<D>, t: nat) {
    t in w.calls && !w.calls[t].phase.Offering? && w.runner != Running(t)
  }

  lemma {:induction false} SettledStays<D>(w: World<D>, steps: seq<Step<D>>, w': World<D>, t: nat)
    requires Settled(w, t) && Run(w, steps, w')
    ensures Settled(w', t) && (t in w'.committed <==> t in w.committed)
    decreases |steps|
  {
    if steps != [] {
      SettledStays(Next(w, steps[0]), steps[1..], w', t);
    }
  }

  /** What a caller may conclude, now and at any later time: success means committed, an error of the
      transaction means not committed; a context error settles it only if the transaction is not being run. */
  lemma WhatCallersKnow<D>(db: D, before: seq<Step<D>>, w: World<D>, later: seq<Step<D>>, w': World<D>, t: nat)
    requires Run(Start(db), before, w) && Run(w, later, w') && t in w.calls && w.calls[t].phase.Told?
    ensures w.calls[t].phase.reply == NoError ==> t in w'.committed
    ensures w.calls[t].phase.reply == TransactionError ==> t !in w'.committed
    ensures w.calls[t].phase.reply == ContextError && t !in w.taken ==> t !in w'.committed
    ensures w.runner != Running(t) ==> (t in w'.committed <==> t in w.committed)
  {
    InvRun(db, Start(db), before, w);
    assert CallOk(w, t);
    if w.runner != Running(t) {
      SettledStays(w, later, w', t);
    }
  }

  /** What the pipeline calls the outcome of a transaction whose caller was told something. */
  function OutcomeOf<D>(w: World<D>, t: nat): P.Outcome
    requires t in w.calls && w.calls[t].phase.Told?
  {
    if t !in w.committed then P.RolledBack else if w.calls[t].phase.reply.NoError? then P.Committed
    else P.CommittedButError
  }

  /** Once settled the outcome is final; success is told exactly for Committed, so an error leaves the caller
      with one of the other two, and the one of the transaction itself with RolledBack only. */
  lemma OutcomesAreFinal<D>(db: D, before: seq<Step<D>>, w: World<D>, later: seq<Step<D>>, w': World<D>, t: nat)
    requires Run(Start(db), before, w) && Run(w, later, w') && Settled(w, t) && w.calls[t].phase.Told?
    ensures t in w'.calls && w'.calls[t].phase == w.calls[t].phase && OutcomeOf(w', t) == OutcomeOf(w, t)
    ensures w.calls[t].phase.reply == NoError <==> OutcomeOf(w, t) == P.Committed
    ensures w.calls[t].phase.reply == TransactionError ==> OutcomeOf(w, t) == P.RolledBack
  {
    InvRun(db, Start(db), before, w);
    assert CallOk(w, t);
    SettledStays(w, later, w', t);
    ToldStays(w, later, w', t);
  }

  lemma {:induction false} ToldStays<D>(w: World<D>, steps: seq<Step<D>>, w': World<D>, t: nat)
    requires Run(w, steps, w') && t in w.calls && w.calls[t].phase.Told?
    ensures t in w'.calls && w'.calls[t].phase == w.calls[t].phase
    decreases |steps|
  {
    if steps != [] {
      ToldStays(Next(w, steps[0]), steps[1..], w', t);
    }
  }

  /** Whoever takes the next turn finds every earlier transaction's fate decided, also of those whose callers
      have left: no other transaction can tell a late commit from an early one. */
  lemma NextTurnIsAfterAll<D>(w: World<D>, next: nat, later: seq<Step<D>>, w': World<D>, t: nat)
    requires Enabled(w, Take(next)) && t in w.calls && t != next && !w.calls[t].phase.Offering?
    requires Run(Next(w, Take(next)), later, w')
    ensures t in w'.committed <==> t in w.committed
  {
    SettledStays(Next(w, Take(next)), later, w', t);
  }

  lemma RunThen<D>(w: World<D>, s: Step<D>, steps: seq<Step<D>>, w': World<D>)
    requires Enabled(w, s) && Run(Next(w, s), steps, w')
    ensures Run(w, [s] + steps, w')
  {
    assert ([s] + steps)[1..] == steps;
  }

  /** A context error says nothing by itself: told the error while its transaction is run, a caller
      cannot know whether the commit is still to come or never will. */
  lemma ContextErrorIsAmbiguous<D>(db: D, fn: D -> Option<D>) returns (before: seq<Step<D>>, w: World<D>)
    requires fn(db).Some?
    ensures Run(Start(db), before, w) && 0 in w.calls && w.calls[0].phase == Told(ContextError)
    ensures Enabled(w, Finish(true)) && Next(w, Finish(true)).db == fn(db).value && 0 in Next(w, Finish(true)).committed
    ensures Enabled(w, Finish(false)) && Next(w, Finish(false)).db == db && 0 !in Next(w, Finish(false)).committed
  {
    var a := Next(Start(db), Submit(0, fn));
    var b := Next(a, Take(0));
    var c := Next(b, Expire(0));
    w := Next(c, GiveUp(0));
    assert w == World(db, map[0 := Call(fn, Told(ContextError), true)], Running(0), {0}, []);
    before := [];
    assert Run(w, before, w);
    RunThen(c, GiveUp(0), before, w);
    before := [GiveUp(0)] + before;
    RunThen(b, Expire(0), before, w);
    before := [Expire(0)] + before;
    RunThen(a, Take(0), before, w);
    before := [Take(0)] + before;
    RunThen(Start(db), Submit(0, fn), before, w);
    before := [Submit(0, fn)] + before;
  }

  // ---------------------------------------------------------------- one atomic step each

  /** The calls whose transactions come to their end in a run, in this order, and the database after each. */
  ghost function Finishes<D>(w: World<D>, steps: seq<Step<D>>): seq<nat>
    decreases |steps|
  {
    if steps == [] || !Enabled(w, steps[0]) then []
    else (if steps[0].Finish? then [w.runner.t] else []) + Finishes(Next(w, steps[0]), steps[1..])
  }

  ghost function Dbs<D>(w: World<D>, steps: seq<Step<D>>): seq<D>
    decreases |steps|
  {
    if steps == [] || !Enabled(w, steps[0]) then []
    else
      var next := Next(w, steps[0]);
      (if steps[0].Finish? then [next.db] else []) + Dbs(next, steps[1..])
  }

  /** The same when each of these transactions is one step, with the outcome that it has in the end. */
  ghost function AtomicDbs<D>(db: D, ts: seq<nat>, v: World<D>): seq<D> {
    if ts == [] then []
    else
      var after := if ts[0] in v.calls && ts[0] in v.committed then Applied(v.calls[ts[0]].fn, db) else db;
      [after] + AtomicDbs(after, ts[1..], v)
  }

  lemma {:induction false} CallStays<D>(w: World<D>, steps: seq<Step<D>>, v: World<D>, t: nat)
    requires Run(w, steps, v) && t in w.calls
    ensures t in v.calls && v.calls[t].fn == w.calls[t].fn
    decreases |steps|
  {
    if steps != [] {
      CallStays(Next(w, steps[0]), steps[1..], v, t);
    }
  }

  lemma {:induction false} AtomicHistory<D>(db: D, w: World<D>, steps: seq<Step<D>>, v: World<D>)
    requires Inv(db, w) && Run(w, steps, v)
    ensures Dbs(w, steps) == AtomicDbs(w.db, Finishes(w, steps), v)
    decreases |steps|
  {
    if steps == [] {
      return;
    }
    var next := Next(w, steps[0]);
    InvNext(db, w, steps[0]);
    AtomicHistory(db, next, steps[1..], v);
    if steps[0].Finish? {
      var t := w.runner.t;
      assert CallOk(w, t);
      SettledStays(next, steps[1..], v, t);
      CallStays(w, steps, v, t);
      var rest := Finishes(next, steps[1..]);
      assert Finishes(w, steps) == [t] + rest && ([t] + rest)[1..] == rest;
      assert Dbs(w, steps) == [next.db] + Dbs(next, steps[1..]);
      assert next.db == if t in v.committed then Applied(v.calls[t].fn, w.db) else w.db;
    } else {
      assert Finishes(w, steps) == Finishes(next, steps[1..]) && Dbs(w, steps) == Dbs(next, steps[1..]);
    }
  }

  /** Each transaction that was handed over and is not being run has come to its end in the run, just once. */
  lemma {:induction false} FinishesAre<D>(db: D, w: World<D>, steps: seq<Step<D>>, v: World<D>)
    requires Inv(db, w) && Run(w, steps, v)
    ensures NoDuplicates(Finishes(w, steps))
    ensures forall t :: t in Finishes(w, steps) <==>
              t in v.taken && v.runner != Running(t) && !(t in w.taken && w.runner != Running(t))
    decreases |steps|
  {
    if steps == [] {
      return;
    }
    var next := Next(w, steps[0]);
    InvNext(db, w, steps[0]);
    FinishesAre(db, next, steps[1..], v);
    if steps[0].Finish? {
      TakenStays(next, steps[1..], v, w.runner.t);
      SettledStays(next, steps[1..], v, w.runner.t);
    }
  }

  lemma {:induction false} TakenStays<D>(w: World<D>, steps: seq<Step<D>>, v: World<D>, t: nat)
    requires Run(w, steps, v) && t in w.taken
    ensures t in v.taken
    decreases |steps|
  {
    if steps != [] {
      TakenStays(Next(w, steps[0]), steps[1..], v, t);
    }
  }

  /** A run with callers that leave early takes the database through the same states as one in which every
      transaction that was handed over is one atomic step with its final outcome. */
  lemma EachIsOneStep<D>(db: D, steps: seq<Step<D>>, v: World<D>)
    requires Run(Start(db), steps, v)
    ensures var ts := Finishes(Start(db), steps);
            && Dbs(Start(db), steps) == AtomicDbs(db, ts, v)
            && NoDuplicates(ts) && forall t :: t in ts <==> t in v.taken && v.runner != Running(t)
    ensures forall t :: t in v.calls && v.calls[t].phase.Told? ==> (t in v.committed <==> !OutcomeOf(v, t).RolledBack?)
  {
    AtomicHistory(db, Start(db), steps, v);
    FinishesAre(db, Start(db), steps, v);
  }

  lemma {:induction false} FinishesJoin<D>(a: World<D>, s: seq<Step<D>>, b: World<D>, t: seq<Step<D>>)
    requires Run(a, s, b)
    ensures Finishes(a, s + t) == Finishes(a, s) + Finishes(b, t)
    decreases |s|
  {
    if s == [] {
      assert s + t == t;
    } else {
      FinishesJoin(Next(a, s[0]), s[1..], b, t);
      assert (s + t)[1..] == s[1..] + t;
    }
  }

  /** And that order agrees with what callers can see: a transaction whose caller was told its result comes
      before all that are submitted later. */
  lemma ToldBeforeLater<D>(db: D, before: seq<Step<D>>, w: World<D>, later: seq<Step<D>>, v: World<D>, t: nat, u: nat)
    requires Run(Start(db), before, w) && Run(w, later, v)
    requires t in w.calls && w.calls[t].phase in {Told(NoError), Told(TransactionError)} && u !in w.calls
    ensures Finishes(Start(db), before + later) == Finishes(Start(db), before) + Finishes(w, later)
    ensures t in Finishes(Start(db), before) && t !in Finishes(w, later) && u !in Finishes(Start(db), before)
  {
    InvRun(db, Start(db), before, w);
    assert CallOk(w, t);
    FinishesJoin(Start(db), before, w, later);
    FinishesAre(db, Start(db), before, w);
    FinishesAre(db, w, later, v);
  }

  // ---------------------------------------------------------------- the loop

  ghost predicate Leads<D(!new)>(w: World<D>, w': World<D>) {
    exists steps :: Run(w, steps, w')
  }

  lemma LeadsSame<D(!new)>(w: World<D>)
    ensures Leads(w, w)
  {
    assert Run(w, [], w);
  }

  lemma {:induction false} RunOn<D>(a: World<D>, s: seq<Step<D>>, b: World<D>, x: Step<D>)
    requires Run(a, s, b) && Enabled(b, x)
    ensures Run(a, s + [x], Next(b, x))
    decreases |s|
  {
    if s == [] {
      assert Run(Next(b, x), [x][1..], Next(b, x));
      assert s + [x] == [x];
    } else {
      RunOn(Next(a, s[0]), s[1..], b, x);
      assert (s + [x])[1..] == s[1..] + [x];
    }
  }

  lemma LeadsOn<D(!new)>(a: World<D>, b: World<D>, x: Step<D>)
    requires Leads(a, b) && Enabled(b, x)
    ensures Leads(a, Next(b, x))
  {
    var s :| Run(a, s, b);
    RunOn(a, s, b, x);
  }

  lemma {:induction false} RunJoin<D>(a: World<D>, s: seq<Step<D>>, b: World<D>, t: seq<Step<D>>, c: World<D>)
    requires Run(a, s, b) && Run(b, t, c)
    ensures Run(a, s + t, c)
    decreases |s|
  {
    if s == [] {
      assert s + t == t;
    } else {
      RunJoin(Next(a, s[0]), s[1..], b, t, c);
      assert (s + t)[1..] == s[1..] + t;
    }
  }

  lemma LeadsJoin<D(!new)>(a: World<D>, b: World<D>, c: World<D>)
    requires Leads(a, b) && Leads(b, c)
    ensures Leads(a, c)
  {
    var s :| Run(a, s, b);
    var t :| Run(b, t, c);
    RunJoin(a, s, b, t, c);
  }

  class TransactionRunner<D(!new)> {
    var db: D
    /** The callers that have called TryRun, and what any of them may submit. */
    var calls: map<nat, Call<D>>
    const offers: seq<D -> Option<D>>

    ghost var w: World<D>

    ghost predicate Valid()
      reads this
    {
      w.db == db && w.calls == calls
    }

    constructor (db: D, offers: seq<D -> Option<D>>)
      ensures Valid() && w == Start(db) && this.offers == offers
    {
      this.db, this.offers := db, offers;
      calls, w := map[], Start(db);
    }

    /** A caller comes, its context ends, or it leaves because of that. */
    method SomeCallerMoves()
      requires Valid()
      modifies this
      ensures Valid() && Leads(old(w), w) && w == old(w).(calls := w.calls)
      ensures forall t :: t in old(calls) && !old(calls)[t].phase.Offering? ==>
                t in calls && KeepsWaiting(old(calls)[t], calls[t])
    {
      var what: nat, t: nat, k: nat := *, *, *;
      ghost var s: Step<D>;
      LeadsSame(w);
      if what == 0 && t !in calls && k < |offers| {
        s := Submit(t, offers[k]);
        calls := calls[t := Call(offers[k], Offering, false)];
      } else if what == 1 && t in calls {
        s := Expire(t);
        calls := calls[t := calls[t].(expired := true)];
      } else if what == 2 && t in calls && calls[t].expired && !calls[t].phase.Told? {
        s := GiveUp(t);
        calls := calls[t := calls[t].(phase := Told(ContextError))];
      } else {
        return;
      }
      LeadsOn(w, w, s);
      w := Next(w, s);
    }

    method CallersMove()
      requires Valid()
      modifies this
      ensures Valid() && Leads(old(w), w) && w == old(w).(calls := w.calls)
      ensures forall t :: t in old(calls) && !old(calls)[t].phase.Offering? ==>
                t in calls && KeepsWaiting(old(calls)[t], calls[t])
    {
      var rounds: int := *;
      LeadsSame(w);
      while rounds > 0
        invariant Valid() && Leads(old(w), w) && w == old(w).(calls := w.calls)
        invariant forall t :: t in old(calls) && !old(calls)[t].phase.Offering? ==>
                    t in calls && KeepsWaiting(old(calls)[t], calls[t])
      {
        rounds := rounds - 1;
        ghost var before := w;
        SomeCallerMoves();
        LeadsJoin(old(w), before, w);
      }
    }

    /** BEGIN, the callback, COMMIT or ROLLBACK. */
    method RunTask(t: nat, beginOk: bool, commitOk: bool) returns (err: bool)
      requires Valid() && w.runner == Running(t) && t in calls
      modifies this
      ensures Valid() && Enabled(old(w), Finish(!err)) && w == Next(old(w), Finish(!err))
      ensures err <==> !(beginOk && old(calls)[t].fn(old(db)).Some? && commitOk)
    {
      ghost var before := w;
      if !beginOk {
        err := true;
      } else {
        var after := calls[t].fn(db);
        err := after.None? || !commitOk;
        if !err {
          db := after.value;
        }
      }
      w := Next(before, Finish(!err));
    }

    /** A task is taken and run, and its result given to the caller, if that one has not left meanwhile; or the
        loop's own context ends before. */
    method Serve(t: nat, turn: Turn) returns (err: bool)
      requires Valid() && w.runner.Idle? && t in calls && calls[t].phase.Offering?
      modifies this
      ensures Valid() && IsServed(old(w), turn, t, err, w)
    {
      ghost var start := w;
      LeadsSame(w);
      LeadsOn(start, w, Take(t));
      w := Next(w, Take(t));
      calls := calls[t := calls[t].(phase := Waiting)];
      ghost var taken := w;
      CallersMove();
      LeadsJoin(start, taken, w);
      ghost var running := w;
      err := RunTask(t, turn.beginOk, turn.commitOk);
      LeadsOn(start, running, Finish(!err));
      ghost var finished := w;
      CallersMove();
      LeadsJoin(start, finished, w);
      AnswerOrLeave(t, err, turn.ends.WhileReplying?, start);
    }

    /** The select: the caller takes the result, or its context is done, or the loop's. */
    method AnswerOrLeave(t: nat, err: bool, stop: bool, ghost start: World<D>)
      requires Valid() && w.runner == Replying(t, !err) && t in calls && Leads(start, w)
      requires calls[t].phase.Waiting? || HasLeft(calls[t])
      modifies this
      ensures Valid() && Leads(start, w) && (if stop then w.runner.Stopped? else w.runner.Idle?)
      ensures w == old(w).(calls := w.calls, runner := w.runner)
      ensures !stop ==> t in calls && (IsTold(calls[t], err) || HasLeft(calls[t]))
    {
      if stop {
        LeadsOn(start, w, Stop);
        w := Next(w, Stop);
        return;
      }
      var leave: bool := *;
      if calls[t].phase.Waiting? && !(leave && calls[t].expired) {
        LeadsOn(start, w, Deliver);
        w := Next(w, Deliver);
        calls := calls[t := calls[t].(phase := Told(if err then TransactionError else NoError))];
      } else {
        LeadsOn(start, w, Skip);
        w := Next(w, Skip);
      }
    }

    /** One turn: whoever offers a transaction is served, unless the loop's context ends while it waits;
        `looked` is the moment at which it looks. */
    method TakeTurn(turn: Turn) returns (result: TurnResult, ghost looked: World<D>)
      requires Valid() && w.runner.Idle?
      modifies this
      ensures Valid() && IsTurn(turn, result, old(w), looked, w)
    {
      LeadsSame(w);
      CallersMove();
      looked := w;
      if turn.ends.WhileIdle? {
        LeadsSame(w);
        LeadsOn(w, w, Stop);
        w := Next(w, Stop);
        return Ended, looked;
      }
      if t: nat :| t in calls && calls[t].phase.Offering? {
        var err := Serve(t, turn);
        return Served(t, err), looked;
      }
      LeadsSame(w);
      return NobodyCame, looked;
    }

    /** The loop, with any callers and any luck with BEGIN and COMMIT, until its context ends. The moments at
        which it looked and at which its turns ended are points of a run of the steps above. */
    method RunTasks(turns: seq<Turn>)
      returns (results: seq<TurnResult>, ghost looked: seq<World<D>>, ghost after: seq<World<D>>)
      requires Valid() && w.runner.Idle?
      modifies this
      ensures Valid() && Leads(old(w), w) && (w.runner.Idle? || w.runner.Stopped?)
      ensures AreTurns(old(w), turns, results, looked, after) && w == LastOf(old(w), after)
      ensures |results| < |turns| ==> results != [] && EndsLoop(turns[|results| - 1], results[|results| - 1])
      ensures w.taken == old(w).taken + CallsOf(results) && w.committed == old(w).committed + Successes(results)
    {
      results, looked, after := [], [], [];
      for i := 0 to |turns|
        invariant Valid() && w.runner.Idle? && |results| == i
        invariant AreTurns(old(w), turns, results, looked, after) && w == LastOf(old(w), after)
      {
        ghost var moment;
        ghost var before := w;
        var result;
        result, moment := TakeTurn(turns[i]);
        TurnLeads(turns[i], result, before, moment, w);
        OneMoreTurn(old(w), turns, results, looked, after, result, moment, w);
        results, looked, after := results + [result], looked + [moment], after + [w];
        if EndsLoop(turns[i], result) {
          break;
        }
      }
      TurnsLead(old(w), turns, results, looked, after);
    }
  }

  /** How BEGIN and COMMIT go in a turn, and when the loop's context ends if it does. */
  datatype Turn = Turn(beginOk: bool, commitOk: bool, ends: Ending)

  datatype Ending = Never | WhileIdle | WhileReplying

  datatype TurnResult = NobodyCame | Ended | Served(t: nat, err: bool)

  predicate EndsLoop(turn: Turn, result: TurnResult) {
    result.Ended? || (result.Served? && turn.ends.WhileReplying?)
  }

  predicate IsTold<D>(c: Call<D>, err: bool) {
    c.phase == Told(if err then TransactionError else NoError)
  }

  predicate HasLeft<D>(c: Call<D>) {
    c.expired && (c.phase.Waiting? || c.phase == Told(ContextError))
  }

  /** From v to w call t is served, with this error. */
  ghost predicate IsServed<D(!new)>(v: World<D>, turn: Turn, t: nat, err: bool, w: World<D>) {
    && Leads(v, w) && t in v.calls && v.calls[t].phase.Offering?
    && (err <==> !(turn.beginOk && v.calls[t].fn(v.db).Some? && turn.commitOk))
    && w.db == (if err then v.db else v.calls[t].fn(v.db).value)
    && w.taken == v.taken + {t} && w.committed == v.committed + (if err then [] else [t])
    && if turn.ends.WhileReplying? then w.runner.Stopped?
       else w.runner.Idle? && t in w.calls && (IsTold(w.calls[t], err) || HasLeft(w.calls[t]))
  }

  ghost predicate NobodyOffers<D>(w: World<D>) {
    forall t :: t in w.calls ==> !w.calls[t].phase.Offering?
  }

  ghost predicate IsTurn<D(!new)>(turn: Turn, result: TurnResult, v: World<D>, looked: World<D>, w: World<D>) {
    && Leads(v, looked) && looked == v.(calls := looked.calls)
    && match result
       case Ended => turn.ends.WhileIdle? && w == looked.(runner := Stopped) && Leads(looked, w)
       case NobodyCame => !turn.ends.WhileIdle? && NobodyOffers(looked) && w == looked
       case Served(t, err) => !turn.ends.WhileIdle? && IsServed(looked, turn, t, err, w)
  }

  lemma TurnLeads<D(!new)>(turn: Turn, result: TurnResult, v: World<D>, looked: World<D>, w: World<D>)
    requires IsTurn(turn, result, v, looked, w)
    ensures Leads(v, w)
    ensures w.taken == v.taken + (if result.Served? then {result.t} else {})
    ensures w.committed == v.committed + Success(result)
    ensures v.runner.Idle? ==> if EndsLoop(turn, result) then w.runner.Stopped? else w.runner.Idle?
  {
    if !result.NobodyCame? {
      LeadsJoin(v, looked, w);
    }
  }

  /** The state that the turns so far have led to. */
  function LastOf<D>(start: World<D>, after: seq<World<D>>): World<D> {
    if after == [] then start else after[|after| - 1]
  }

  ghost predicate AreTurns<D(!new)>(start: World<D>, turns: seq<Turn>, results: seq<TurnResult>,
                                    looked: seq<World<D>>, after: seq<World<D>>) {
    && |looked| == |after| == |results| <= |turns|
    && forall i :: 0 <= i < |results| ==>
      IsTurn(turns[i], results[i], LastOf(start, after[..i]), looked[i], after[i])
  }

  lemma OneMoreTurn<D(!new)>(start: World<D>, turns: seq<Turn>, results: seq<TurnResult>, looked: seq<World<D>>,
                             after: seq<World<D>>, result: TurnResult, moment: World<D>, w: World<D>)
    requires AreTurns(start, turns, results, looked, after) && |results| < |turns|
    requires IsTurn(turns[|results|], result, LastOf(start, after), moment, w)
    ensures AreTurns(start, turns, results + [result], looked + [moment], after + [w])
    ensures LastOf(start, after + [w]) == w
  {
    var n := |results|;
    assert (after + [w])[..n] == after;
    forall i | 0 <= i < n
      ensures IsTurn(turns[i], (results + [result])[i], LastOf(start, (after + [w])[..i]), (looked + [moment])[i],
                     (after + [w])[i])
    {
      assert (after + [w])[..i] == after[..i];
    }
  }

  /** The calls that were served, and those of them that had no error, in order. */
  function CallsOf(results: seq<TurnResult>): set<nat> {
    set r | r in results && r.Served? :: r.t
  }

  function Success(result: TurnResult): seq<nat> {
    if result.Served? && !result.err then [result.t] else []
  }

  function Successes(results: seq<TurnResult>): seq<nat> {
    if results == [] then [] else Successes(results[..|results| - 1]) + Success(results[|results| - 1])
  }

  lemma CallsAdded(taken: set<nat>, results: seq<TurnResult>)
    requires results != []
    ensures var n := |results| - 1;
            var call := if results[n].Served? then {results[n].t} else {};
            taken + CallsOf(results) == taken + CallsOf(results[..n]) + call
  {
    var n := |results| - 1;
    forall c ensures c in CallsOf(results) <==>
                     c in CallsOf(results[..n]) || (results[n].Served? && c == results[n].t)
    {
      if c in CallsOf(results) {
        var i :| 0 <= i < |results| && results[i].Served? && results[i].t == c;
        assert i < n ==> results[..n][i] in results[..n];
      }
      if c in CallsOf(results[..n]) {
        var i :| 0 <= i < n && results[..n][i].Served? && results[..n][i].t == c;
        assert results[i] in results;
      }
      assert results[n] in results;
    }
  }

  lemma SuccessesAdded(committed: seq<nat>, results: seq<TurnResult>)
    requires results != []
    ensures var n := |results| - 1;
            committed + Successes(results) == committed + Successes(results[..n]) + Success(results[n])
  {
    var n := |results| - 1;
    InAnyGroups(committed, Successes(results[..n]), Success(results[n]));
  }

  lemma InAnyGroups(a: seq<nat>, b: seq<nat>, c: seq<nat>)
    ensures a + (b + c) == a + b + c
  {
  }

  lemma TurnsBefore<D(!new)>(start: World<D>, turns: seq<Turn>, results: seq<TurnResult>, looked: seq<World<D>>,
                             after: seq<World<D>>)
    requires AreTurns(start, turns, results, looked, after) && results != []
    ensures var n := |results| - 1;
            && AreTurns(start, turns, results[..n], looked[..n], after[..n])
            && IsTurn(turns[n], results[n], LastOf(start, after[..n]), looked[n], LastOf(start, after))
  {
    var n := |results| - 1;
    forall i | 0 <= i < n
      ensures IsTurn(turns[i], results[..n][i], LastOf(start, after[..n][..i]), looked[..n][i], after[..n][i])
    {
      assert after[..n][..i] == after[..i];
    }
  }

  /** The turns are a run, in which the calls served are taken one by one, and those without an error committed
      in this order. */
  lemma {:induction false} TurnsLead<D(!new)>(start: World<D>, turns: seq<Turn>, results: seq<TurnResult>,
                                             looked: seq<World<D>>, after: seq<World<D>>)
    requires AreTurns(start, turns, results, looked, after)
    ensures var w := LastOf(start, after);
            && Leads(start, w) && w.taken == start.taken + CallsOf(results)
            && w.committed == start.committed + Successes(results)
    decreases |results|
  {
    if results == [] {
      LeadsSame(start);
    } else {
      var n := |results| - 1;
      TurnsBefore(start, turns, results, looked, after);
      TurnsLead(start, turns, results[..n], looked[..n], after[..n]);
      var v, w := LastOf(start, after[..n]), LastOf(start, after);
      TurnLeads(turns[n], results[n], v, looked[n], w);
      LeadsJoin(start, v, w);
      CallsAdded(start.taken, results);
      SuccessesAdded(start.committed, results);
    }
  }

  /** A call whose transaction was taken goes on waiting or leaves because its context is over. */
  ghost predicate KeepsWaiting<D>(c: Call<D>, c': Call<D>) {
    c'.fn == c.fn && (c.expired ==> c'.expired) &&
      (c'.phase == c.phase || (c'.expired && c'.phase == Told(ContextError)))
  }
}
