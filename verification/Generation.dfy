/** One whole call of Generate, as a function, and what it does to the state machine: with nothing in between, its
    three loops over the list of trackers are a run of single steps, and with the concurrency of the service each
    of them comes down to at most one step. */
module Generation {
  import opened Sequences
  import opened Trackers
  import opened SchedulerModel
  import opened SchedulerProperties
  import C = Contexts
  import F = Filters

  ghost predicate NoneDone(ids: seq<nat>, store: seq<Tracker>)
    requires Ids(ids, |store|)
  {
    forall j :: 0 <= j < |ids| ==> !store[ids[j]].state.Done?
  }

  /** Dropping the trackers that are done, each after cancelling its attempt's context. */
  datatype Pruned = Pruned(active: seq<nat>, tree: C.Tree)

  function PruneAll(store: seq<Tracker>, active: seq<nat>, tree: C.Tree): (r: Pruned)
    requires Ids(active, |store|)
    ensures |r.tree| == |tree| && Ids(r.active, |store|) && NoneDone(r.active, store)
  {
    if active == [] then Pruned([], tree)
    else
      var before := PruneAll(store, active[..|active| - 1], tree);
      var id := active[|active| - 1];
      if store[id].state.Done? then Pruned(before.active, CancelIfSet(before.tree, store[id].ctx))
      else Pruned(before.active + [id], before.tree)
  }

  lemma PruneOne(store: seq<Tracker>, active: seq<nat>, tree: C.Tree, i: nat)
    requires Ids(active, |store|) && i < |active|
    ensures PruneAll(store, active[..i + 1], tree) ==
            var before := PruneAll(store, active[..i], tree);
            var id := active[i];
            if store[id].state.Done? then Pruned(before.active, CancelIfSet(before.tree, store[id].ctx))
            else Pruned(before.active + [id], before.tree)
  {
    assert active[..i + 1][..i] == active[..i];
  }

  function GrowBy(g: Generator, now: int, rounds: nat): Generator {
    if rounds == 0 then g else Extend(GrowBy(g, now, rounds - 1), now)
  }

  datatype Attempt = Attempt(tracker: nat, ctx: nat, filter: F.Filter)

  /** `failed` is set by the first tracker that cannot be started; later ones are not looked at. */
  datatype StartedAll = StartedAll(store: seq<Tracker>, tree: C.Tree, attempts: seq<Attempt>, failed: bool)

  function StartNext(before: StartedAll, id: nat, parent: nat, subject: Subject): (r: StartedAll)
    requires id < |before.store| && parent < |before.tree|
    ensures |r.store| == |before.store| && |before.tree| <= |r.tree|
  {
    var r := StartAttempt(before.store[id], before.tree, parent, subject);
    if r.Failed? then before.(failed := true)
    else if r.StillRunning? then before
    else StartedAll(before.store[id := r.tracker], r.tree, before.attempts + [Attempt(id, r.ctx, r.filter)], false)
  }

  function StartAll(store: seq<Tracker>, active: seq<nat>, tree: C.Tree, parent: nat, subject: Subject): (r: StartedAll)
    requires Ids(active, |store|) && parent < |tree|
    ensures |r.store| == |store| && |tree| <= |r.tree|
  {
    if active == [] then StartedAll(store, tree, [], false)
    else
      var before := StartAll(store, active[..|active| - 1], tree, parent, subject);
      if before.failed then before else StartNext(before, active[|active| - 1], parent, subject)
  }

  // With one tracker at most the loops come down to this.

  lemma PruneSmall(store: seq<Tracker>, active: seq<nat>, tree: C.Tree)
    requires Ids(active, |store|) && |active| <= 1
    ensures PruneAll(store, active, tree) ==
            if active != [] && store[active[0]].state.Done? then Pruned([], CancelIfSet(tree, store[active[0]].ctx))
            else Pruned(active, tree)
  {
    if active != [] {
      assert active[..0] == [] && [] + [active[0]] == active;
    }
  }

  lemma StartSmall(store: seq<Tracker>, active: seq<nat>, tree: C.Tree, parent: nat, subject: Subject)
    requires Ids(active, |store|) && parent < |tree| && |active| <= 1
    ensures StartAll(store, active, tree, parent, subject) ==
            if active == [] then StartedAll(store, tree, [], false)
            else
              var s := StartAttempt(store[active[0]], tree, parent, subject);
              if s.Failed? then StartedAll(store, tree, [], true)
              else if s.StillRunning? then StartedAll(store, tree, [], false)
              else StartedAll(store[active[0] := s.tracker], s.tree, [Attempt(active[0], s.ctx, s.filter)], false)
  {
    if active != [] {
      assert active[..0] == [] && active[|active| - 1] == active[0];
      assert StartAll(store, active[..0], tree, parent, subject) == StartedAll(store, tree, [], false);
    }
  }

  datatype Generated = Generated(gen: Generator, tree: C.Tree, attempts: seq<Attempt>, failed: bool)

  ghost predicate ActiveOk(g: Generator) {
    Ids(g.active, |g.store|)
  }

  lemma {:induction false} GrowByKeepsActiveOk(g: Generator, now: int, rounds: nat)
    requires ActiveOk(g)
    ensures ActiveOk(GrowBy(g, now, rounds))
  {
    if rounds > 0 {
      GrowByKeepsActiveOk(g, now, rounds - 1);
    }
  }

  function Generate(g: Generator, tree: C.Tree, now: int, parent: nat, subject: Subject): Generated
    requires ActiveOk(g) && parent < |tree|
  {
    var pruned := PruneAll(g.store, g.active, tree);
    var kept := g.(active := pruned.active);
    var rounds := if |kept.active| < CONCURRENCY then CONCURRENCY - |kept.active| else 0;
    var grown := GrowBy(kept, now, rounds);
    GrowByKeepsActiveOk(kept, now, rounds);
    var started := StartAll(grown.store, grown.active, pruned.tree, parent, subject);
    Generated(grown.(store := started.store), started.tree, started.attempts, started.failed)
  }

  /** The stages of Generate by name. */
  lemma GenerateStages(g: Generator, tree: C.Tree, now: int, parent: nat, subject: Subject, kept: Generator,
                       grown: Generator)
    requires ActiveOk(g) && ActiveOk(grown) && parent < |tree|
    requires kept == g.(active := PruneAll(g.store, g.active, tree).active)
    requires grown == GrowBy(kept, now, if |kept.active| < CONCURRENCY then CONCURRENCY - |kept.active| else 0)
    ensures var s := StartAll(grown.store, grown.active, PruneAll(g.store, g.active, tree).tree, parent, subject);
            Generate(g, tree, now, parent, subject) == Generated(grown.(store := s.store), s.tree, s.attempts, s.failed)
  {
  }

  function ToTasks(k: Kind, attempts: seq<Attempt>): (r: seq<Task>)
    ensures |r| == |attempts|
    ensures forall i :: 0 <= i < |r| ==> r[i] == Task(k, attempts[i].tracker, attempts[i].ctx, attempts[i].filter)
  {
    seq(|attempts|, i requires 0 <= i < |attempts| => Task(k, attempts[i].tracker, attempts[i].ctx, attempts[i].filter))
  }

  /** The world after Generate for kind k ran with nothing in between. */
  function AfterGenerate(w: World, k: Kind, r: Generated): World {
    w.(tree := r.tree, gens := w.gens.With(k, r.gen), tasks := w.tasks + ToTasks(k, r.attempts))
  }

  // ---------------------------------------------------------------- Generate is a run of single steps

  lemma {:induction false} RemoveMiddle(a: seq<nat>, x: nat, b: seq<nat>)
    requires NoDuplicates(a + [x] + b)
    ensures Remove(a + [x] + b, x) == a + b
  {
    var s := a + [x] + b;
    if a == [] {
      assert s == [x] + b && x !in b by {
        forall i | 0 <= i < |b| ensures b[i] != x {
          assert s[i + 1] == b[i] && s[0] == x;
        }
      }
      RemoveAbsent(b, x);
    } else {
      assert s[1..] == a[1..] + [x] + b;
      assert s[0] == a[0] && s[|a|] == x;
      RemoveMiddle(a[1..], x, b);
      assert [a[0]] + (a[1..] + b) == a + b;
    }
  }

  lemma {:induction false} RemoveAbsent(s: seq<nat>, x: nat)
    requires x !in s
    ensures Remove(s, x) == s
  {
    if s != [] {
      RemoveAbsent(s[1..], x);
    }
  }

  ghost function DuringPrune(w: World, k: Kind, n: nat): World
    requires ActiveOk(w.gens.Of(k)) && n <= |w.gens.Of(k).active|
  {
    var g := w.gens.Of(k);
    var p := PruneAll(g.store, g.active[..n], w.tree);
    w.(tree := p.tree, gens := w.gens.With(k, g.(active := p.active + g.active[n..])))
  }

  lemma PruneStepIs(w: World, k: Kind, id: nat)
    requires id in w.gens.Of(k).active && id < |w.gens.Of(k).store|
    ensures var g := w.gens.Of(k);
            Next(w, Prune(k, id)) ==
            if g.store[id].state.Done?
            then w.(tree := CancelIfSet(w.tree, g.store[id].ctx),
                    gens := w.gens.With(k, g.(active := Remove(g.active, id))))
            else w
  {
  }

  lemma KeptInMiddle(kept: seq<nat>, id: nat, rest: seq<nat>)
    ensures id in kept + [id] + rest
  {
    assert (kept + [id] + rest)[|kept|] == id;
  }

  lemma WithTwice(gens: Generators, k: Kind, g: Generator, g': Generator)
    ensures gens.With(k, g).With(k, g') == gens.With(k, g') && gens.With(k, g).Of(k) == g
  {
  }

  lemma PruneOneMore(w: World, k: Kind, n: nat)
    requires ActiveOk(w.gens.Of(k)) && 0 < n <= |w.gens.Of(k).active| && Inv(DuringPrune(w, k, n - 1))
    ensures Next(DuringPrune(w, k, n - 1), Prune(k, w.gens.Of(k).active[n - 1])) == DuringPrune(w, k, n)
  {
    var g := w.gens.Of(k);
    var id := g.active[n - 1];
    PruneOne(g.store, g.active, w.tree, n - 1);
    var before := PruneAll(g.store, g.active[..n - 1], w.tree);
    var rest := g.active[n..];
    var v := DuringPrune(w, k, n - 1);
    assert g.active[n - 1..] == [id] + rest;
    assert before.active + ([id] + rest) == before.active + [id] + rest;
    var during := g.(active := before.active + [id] + rest);
    assert v == w.(tree := before.tree, gens := w.gens.With(k, during));
    WithTwice(w.gens, k, during, during.(active := before.active + rest));
    KeptInMiddle(before.active, id, rest);
    PruneStepIs(v, k, id);
    RemoveMiddle(before.active, id, rest);
  }

  lemma {:induction false} PruneIsRun(w: World, k: Kind, n: nat) returns (steps: seq<Step>)
    requires Inv(w) && n <= |w.gens.Of(k).active|
    ensures Run(w, steps) == DuringPrune(w, k, n)
  {
    var active := w.gens.Of(k).active;
    if n == 0 {
      assert active[..0] == [] && [] + active[0..] == active;
      return [];
    }
    steps := PruneIsRun(w, k, n - 1);
    InvRun(w, steps);
    PruneOneMore(w, k, n);
    var step := Prune(k, active[n - 1]);
    assert (steps + [step])[..|steps|] == steps;
    steps := steps + [step];
  }

  lemma GrowOnce(w: World, k: Kind, g: Generator)
    requires |g.active| < CONCURRENCY
    ensures Next(w.(gens := w.gens.With(k, g)), Grow(k)) == w.(gens := w.gens.With(k, Extend(g, w.now)))
    ensures |Extend(g, w.now).active| <= |g.active| + 1
  {
  }

  lemma {:induction false} GrowIsRun(w: World, k: Kind, rounds: nat) returns (steps: seq<Step>)
    requires |w.gens.Of(k).active| + rounds <= CONCURRENCY
    ensures Run(w, steps) == w.(gens := w.gens.With(k, GrowBy(w.gens.Of(k), w.now, rounds)))
    ensures |GrowBy(w.gens.Of(k), w.now, rounds).active| <= |w.gens.Of(k).active| + rounds
  {
    if rounds == 0 {
      return [];
    }
    steps := GrowIsRun(w, k, rounds - 1);
    GrowOnce(w, k, GrowBy(w.gens.Of(k), w.now, rounds - 1));
    assert (steps + [Grow(k)])[..|steps|] == steps;
    steps := steps + [Grow(k)];
  }

  ghost function DuringStart(w: World, k: Kind, n: nat, parent: nat, subject: Subject): World
    requires ActiveOk(w.gens.Of(k)) && n <= |w.gens.Of(k).active| && parent < |w.tree|
  {
    var g := w.gens.Of(k);
    var r := StartAll(g.store, g.active[..n], w.tree, parent, subject);
    w.(tree := r.tree, gens := w.gens.With(k, g.(store := r.store)), tasks := w.tasks + ToTasks(k, r.attempts))
  }

  /** With nothing in between, a tracker that was kept is not done, so none fails to start. */
  lemma {:induction false} StartIsRun(w: World, k: Kind, n: nat, parent: nat, subject: Subject)
    returns (steps: seq<Step>)
    requires Inv(w) && n <= |w.gens.Of(k).active| && parent < |w.tree|
    requires NoneDone(w.gens.Of(k).active, w.gens.Of(k).store)
    ensures Run(w, steps) == DuringStart(w, k, n, parent, subject)
    ensures var r := StartAll(w.gens.Of(k).store, w.gens.Of(k).active[..n], w.tree, parent, subject);
            !r.failed && NoneDone(w.gens.Of(k).active, r.store)
  {
    var g := w.gens.Of(k);
    if n == 0 {
      assert w.tasks + [] == w.tasks;
      return [];
    }
    steps := StartIsRun(w, k, n - 1, parent, subject);
    var before := Run(w, steps);
    InvRun(w, steps);
    var id := g.active[n - 1];
    assert g.active[..n][..n - 1] == g.active[..n - 1];
    var r := StartAll(g.store, g.active[..n - 1], w.tree, parent, subject);
    StartFailsOnlyWhenDone(r.store[id], r.tree, parent, subject);
    var step := Start(k, id, parent, subject);
    assert (steps + [step])[..|steps|] == steps;
    var more := StartAll(g.store, g.active[..n], w.tree, parent, subject);
    assert w.tasks + ToTasks(k, more.attempts) == Next(before, step).tasks;
    steps := steps + [step];
  }

  /** Nothing coming in between, Generate succeeds and is a run of the state machine. */
  lemma GenerateIsRun(w: World, k: Kind, parent: nat, subject: Subject) returns (steps: seq<Step>)
    requires Inv(w) && parent < |w.tree|
    ensures !Generate(w.gens.Of(k), w.tree, w.now, parent, subject).failed
    ensures Run(w, steps) == AfterGenerate(w, k, Generate(w.gens.Of(k), w.tree, w.now, parent, subject))
  {
    var g := w.gens.Of(k);
    var n := |g.active|;
    assert g.active[..n] == g.active && g.active[n..] == [];
    var prune := PruneIsRun(w, k, n);
    var w1 := Run(w, prune);
    InvRun(w, prune);
    var kept := w1.gens.Of(k);
    assert kept.active == PruneAll(g.store, g.active, w.tree).active;
    var grow := GrowIsRun(w1, k, CONCURRENCY - |kept.active|);
    var w2 := Run(w1, grow);
    InvRun(w1, grow);
    GrowByNotDone(kept, w.now, CONCURRENCY - |kept.active|);
    var grown := w2.gens.Of(k);
    assert grown.active[..|grown.active|] == grown.active;
    var start := StartIsRun(w2, k, |grown.active|, parent, subject);
    RunAppend(w, prune, grow);
    RunAppend(w, prune + grow, start);
    steps := prune + grow + start;
  }

  lemma {:induction false} GrowByNotDone(g: Generator, now: int, rounds: nat)
    requires ActiveOk(g) && NoneDone(g.active, g.store)
    ensures var g' := GrowBy(g, now, rounds);
            ActiveOk(g') && NoneDone(g'.active, g'.store)
  {
    if rounds > 0 {
      GrowByNotDone(g, now, rounds - 1);
    }
  }
}
