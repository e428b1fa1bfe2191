/** What holds over every run of one relay's scheduler. */
module SchedulerProperties {
  import opened Sequences
  import opened Wrappers
  import opened TimeWindows
  import opened Trackers
  import opened SchedulerModel
  import C = Contexts

  ghost predicate Reachable(w: World) {
    exists global: int, author: int, tag: int, steps: seq<Step> :: w == Run(NewWorld(global, author, tag), steps)
  }

  lemma ReachableInv(w: World)
    requires Reachable(w)
    ensures Inv(w)
  {
    var global: int, author: int, tag: int, steps: seq<Step> :| w == Run(NewWorld(global, author, tag), steps);
    InvInitially(global, author, tag);
    InvRun(NewWorld(global, author, tag), steps);
  }

  /** Window i of the tiling has been issued and its tracker dropped. */
  ghost predicate Finished(g: Generator, i: nat) {
    i < |g.store| && i !in g.active
  }

  ghost predicate Tracked(g: Generator, i: nat) {
    i < |g.store| && i in g.active
  }

  /** No gaps and no double work: with n windows issued, windows 0 .. n-1 are each either finished or
      tracked (never both, never twice), the next one is n, and a window is finished only after an
      EOSE for an attempt at that very window reached it while the attempt's context was live. */
  lemma WindowConservation(w: World, k: Kind)
    requires Reachable(w)
    ensures var g := w.gens.Of(k);
            && g.last == WindowAt(g.start, |g.store|)
            && (forall i: nat :: i < |g.store| <==> Finished(g, i) || Tracked(g, i))
            && (forall i: nat :: !(Finished(g, i) && Tracked(g, i)))
            && (forall i: nat :: i < |g.store| ==> g.store[i].window == WindowAt(g.start, i))
            && NoDuplicates(g.active) && |g.active| <= CONCURRENCY
            && (forall i: nat :: Finished(g, i) ==> EoseSeen(w, k, i))
            && (forall t: nat, i: nat :: IsAttempt(w, t, k, i) ==>
                  i < |g.store| && IsFilterOf(w.tasks[t].filter, g.store[i].window))
  {
    ReachableInv(w);
    var g := w.gens.Of(k);
    forall t: nat, i: nat | IsAttempt(w, t, k, i)
      ensures i < |g.store| && IsFilterOf(w.tasks[t].filter, g.store[i].window)
    {
      assert TaskOk(w, t);
    }
  }

  // ---------------------------------------------------------------- concurrency

  ghost function LiveTasks(w: World): set<nat> {
    set t: nat | t < |w.tasks| && C.Live(w.tree, w.tasks[t].ctx)
  }

  ghost function LiveTasksOf(w: World, k: Kind): set<nat> {
    set t: nat | t < |w.tasks| && w.tasks[t].kind == k && C.Live(w.tree, w.tasks[t].ctx)
  }

  lemma AtMostOne(s: set<nat>)
    requires forall t, u :: t in s && u in s ==> t == u
    ensures |s| <= 1
  {
    if s != {} {
      var t :| t in s;
      assert s == {t};
    }
  }

  /** Two live attempts of one kind would belong to the one tracker kept, which has one context. */
  lemma OneLiveAttemptPerKind(w: World, k: Kind)
    requires Inv(w)
    ensures |LiveTasksOf(w, k)| <= 1
  {
    forall t, u | t in LiveTasksOf(w, k) && u in LiveTasksOf(w, k) ensures t == u {
      assert TaskOk(w, t) && TaskOk(w, u);
      var active := w.gens.Of(k).active;
      var i, j :| 0 <= i < |active| && 0 <= j < |active| && active[i] == w.tasks[t].tracker &&
        active[j] == w.tasks[u].tracker;
      assert w.tasks[t].ctx == w.tasks[u].ctx;
    }
    AtMostOne(LiveTasksOf(w, k));
  }

  /** Over all its subscriptions a relay never has more than three queries running, one of each kind,
      however callbacks, cancellations and generators interleave. */
  lemma ConcurrencyBound(w: World)
    requires Reachable(w)
    ensures |LiveTasks(w)| <= 3
    ensures forall k: Kind :: |LiveTasksOf(w, k)| <= 1
  {
    ReachableInv(w);
    forall k: Kind ensures |LiveTasksOf(w, k)| <= 1 {
      OneLiveAttemptPerKind(w, k);
    }
    assert LiveTasks(w) == LiveTasksOf(w, Global) + LiveTasksOf(w, Author) + LiveTasksOf(w, Tag);
  }

  /** MaybeStart's error needs a mark that came in between: the tracker was done. */
  lemma StartFailsOnlyWhenDone(t: Tracker, tree: C.Tree, parent: nat, subject: Subject)
    requires parent < |tree| && t.window.duration > 0
    ensures StartAttempt(t, tree, parent, subject).Failed? <==> t.state.Done?
    ensures StartAttempt(t, tree, parent, subject).NewAttempt? <==> !t.state.Done? && IsDead(t, tree)
  {
  }

  lemma FirstAttempt(now: int, subject: Subject) returns (w: World)
    ensures w == Next(Next(Next(NewWorld(now, now, now), Derive(None)), Grow(Global)), Start(Global, 0, 0, subject))
    ensures w.tree == [C.Node(None, false), C.Node(Some(0), false)] && C.Live(w.tree, 1)
    ensures |w.tasks| == 1 && w.tasks[0].kind == Global && w.tasks[0].tracker == 0 && w.tasks[0].ctx == 1
    ensures var g := w.gens.global; g.active == [0] && |g.store| == 1 && g.store[0].state.Started?
  {
    var w2 := Next(Next(NewWorld(now, now, now), Derive(None)), Grow(Global));
    w := Next(w2, Start(Global, 0, 0, subject));
    C.LiveAfterWithCancel(w2.tree, Some(0), 1);
  }

  /** The run in which that happens: started, pruned (not done yet), EOSE, started again. */
  lemma EoseBetweenPruneAndStart(now: int, subject: Subject)
    ensures var steps := [Derive(None), Grow(Global), Start(Global, 0, 0, subject), Prune(Global, 0),
                          Check(0, true), Mark(0, true)];
            var w := Run(NewWorld(now, now, now), steps);
            && w.gens.global.active == [0] && |w.gens.global.store| == 1 && |w.tree| > 0
            && StartAttempt(w.gens.global.store[0], w.tree, 0, subject).Failed?
  {
    var w0 := NewWorld(now, now, now);
    var w3 := FirstAttempt(now, subject);
    var w4 := Next(w3, Prune(Global, 0));
    assert w4 == w3;
    var w5 := Next(w4, Check(0, true));
    assert C.Live(w4.tree, w4.tasks[0].ctx);
    var w6 := Next(w5, Mark(0, true));
    RunSix(w0, Derive(None), Grow(Global), Start(Global, 0, 0, subject), Prune(Global, 0), Check(0, true),
           Mark(0, true));
  }

  lemma RunSix(w: World, a: Step, b: Step, c: Step, d: Step, e: Step, f: Step)
    ensures Run(w, [a, b, c, d, e, f]) == Next(Next(Next(Next(Next(Next(w, a), b), c), d), e), f)
  {
    assert [a, b, c, d, e, f] == [a] + [b] + [c] + [d] + [e] + [f];
    RunAppend(w, [a] + [b] + [c] + [d] + [e], [f]);
    RunAppend(w, [a] + [b] + [c] + [d], [e]);
    RunAppend(w, [a] + [b] + [c], [d]);
    RunAppend(w, [a] + [b], [c]);
    RunAppend(w, [a], [b]);
    forall s: Step, v: World ensures Run(v, [s]) == Next(v, s) {
      assert [s][..0] == [];
    }
  }

  lemma StepKillsOnly(w: World, s: Step, c: nat)
    requires c < |w.tree|
    ensures c < |Next(w, s).tree| && (C.Live(Next(w, s).tree, c) ==> C.Live(w.tree, c))
  {
    match s
    case Derive(parent) =>
      if parent.None? || parent.value < |w.tree| {
        C.LiveAfterWithCancel(w.tree, parent, c);
      }
    case CancelContext(a) => C.LiveAfterCancel(w.tree, a, c);
    case Prune(k, id) =>
      var g := w.gens.Of(k);
      if id in g.active && id < |g.store| && g.store[id].ctx.Some? {
        C.LiveAfterCancel(w.tree, g.store[id].ctx.value, c);
      }
    case Start(k, id, under, subject) =>
      var g := w.gens.Of(k);
      if id in g.active && id < |g.store| && under < |w.tree| &&
         StartAttempt(g.store[id], w.tree, under, subject).NewAttempt? {
        StartLive(g.store[id], w.tree, under, subject, c);
      }
    case Tick(_) =>
    case Grow(_) =>
    case Check(_, _) =>
    case Mark(_, _) =>
  }

  /** An attempt whose context is dead never runs again; a retry is always a new attempt. */
  lemma {:induction false} OnceDeadAlwaysDead(w: World, steps: seq<Step>, c: nat)
    requires c < |w.tree|
    ensures c < |Run(w, steps).tree| && (C.Live(Run(w, steps).tree, c) ==> C.Live(w.tree, c))
  {
    if steps != [] {
      OnceDeadAlwaysDead(w, steps[..|steps| - 1], c);
      StepKillsOnly(Run(w, steps[..|steps| - 1]), steps[|steps| - 1], c);
    }
  }

  // ---------------------------------------------------------------- what a callback leads to

  /** The attempt's tracker is kept and may be started below this context. */
  ghost predicate CanRestart(w: World, t: nat, under: nat) {
    && t < |w.tasks| && under < |w.tree|
    && w.tasks[t].tracker in w.gens.Of(w.tasks[t].kind).active
    && w.tasks[t].tracker < |w.gens.Of(w.tasks[t].kind).store|
  }

  /** The next start of the attempt's tracker. */
  function Restart(w: World, t: nat, under: nat, subject: Subject): Step
    requires t < |w.tasks|
  {
    Start(w.tasks[t].kind, w.tasks[t].tracker, under, subject)
  }

  /** After a mark the next start fails iff the window is finished: it was before, or it is now by an EOSE for an
      attempt that had not failed. Otherwise the window is tried again, and the old attempt is over. */
  lemma MarkDecides(w: World, t: nat, isEose: bool, under: nat, subject: Subject)
    requires Inv(w) && (t, isEose) in w.checked && CanRestart(w, t, under)
    ensures var k, id := w.tasks[t].kind, w.tasks[t].tracker;
            var state := w.gens.Of(k).store[id].state;
            var finished := state.Done? || (isEose && state.Started?);
            var marked := Next(w, Mark(t, isEose));
            var w' := Next(marked, Restart(w, t, under, subject));
            && id < |marked.gens.Of(k).store|
            && (StartAttempt(marked.gens.Of(k).store[id], marked.tree, under, subject).Failed? <==> finished)
            && w'.tasks[..|w.tasks|] == w.tasks
            && (if finished then w'.tasks == w.tasks
                else |w'.tasks| == |w.tasks| + 1 && IsAttempt(w', |w.tasks|, k, id) && !C.Live(w'.tree, w.tasks[t].ctx))
  {
    var k, id := w.tasks[t].kind, w.tasks[t].tracker;
    assert TaskOk(w, t);
    var marked := Next(w, Mark(t, isEose));
    InvNext(w, Mark(t, isEose));
    assert TaskOk(marked, t);
    var tracker := marked.gens.Of(k).store[id];
    StartFailsOnlyWhenDone(tracker, marked.tree, under, subject);
    if !tracker.state.Done? {
      StartLive(tracker, marked.tree, under, subject, w.tasks[t].ctx);
    }
  }

  /** An error of a live attempt makes the next start try the window again, unless an EOSE came before it. */
  lemma ErrorIsRetried(w: World, t: nat, under: nat, subject: Subject)
    requires Inv(w) && CanRestart(w, t, under) && C.Live(w.tree, w.tasks[t].ctx)
    requires !w.gens.Of(w.tasks[t].kind).store[w.tasks[t].tracker].state.Done?
    ensures var w' := Next(Next(Next(w, Check(t, false)), Mark(t, false)), Restart(w, t, under, subject));
            && |w'.tasks| == |w.tasks| + 1 && w'.tasks[..|w.tasks|] == w.tasks
            && IsAttempt(w', |w.tasks|, w.tasks[t].kind, w.tasks[t].tracker) && !C.Live(w'.tree, w.tasks[t].ctx)
            && IsFilterOf(w'.tasks[|w.tasks|].filter, w.gens.Of(w.tasks[t].kind).store[w.tasks[t].tracker].window)
  {
    assert TaskOk(w, t);
    InvNext(w, Check(t, false));
    var checked := Next(w, Check(t, false));
    MarkDecides(checked, t, false, under, subject);
    InvNext(checked, Mark(t, false));
    InvNext(Next(checked, Mark(t, false)), Restart(w, t, under, subject));
    var w' := Next(Next(checked, Mark(t, false)), Restart(w, t, under, subject));
    assert TaskOk(w', |w.tasks|);
  }

  /** The EOSE of a live attempt that has not failed finishes its window: pruning drops the tracker and ends the
      attempt's context, and the next window is issued iff one remains. */
  lemma EoseFinishesWindow(w: World, t: nat)
    requires Inv(w) && t < |w.tasks| && C.Live(w.tree, w.tasks[t].ctx)
    requires w.tasks[t].tracker < |w.gens.Of(w.tasks[t].kind).store|
    requires w.gens.Of(w.tasks[t].kind).store[w.tasks[t].tracker].state.Started?
    ensures var k, id := w.tasks[t].kind, w.tasks[t].tracker;
            var pruned := Next(Next(Next(w, Check(t, true)), Mark(t, true)), Prune(k, id));
            var grown := Next(pruned, Grow(k));
            && Finished(pruned.gens.Of(k), id) && pruned.gens.Of(k).active == [] && !C.Live(pruned.tree, w.tasks[t].ctx)
            && |grown.gens.Of(k).store| == |w.gens.Of(k).store| + (if Remaining(w.gens.Of(k), w.now) > 0 then 1 else 0)
  {
    var k, id := w.tasks[t].kind, w.tasks[t].tracker;
    assert TaskOk(w, t);
    var checked := Next(w, Check(t, true));
    InvNext(w, Check(t, true));
    var marked := Next(checked, Mark(t, true));
    InvNext(checked, Mark(t, true));
    assert TaskOk(marked, t) && marked.gens.Of(k).active == [id];
    assert marked.gens.Of(k).store[id].state.Done?;
    var pruned := Next(marked, Prune(k, id));
    InvNext(marked, Prune(k, id));
    RemoveIs([id], id);
    assert TaskOk(pruned, t);
    GrowUsesOne(pruned.gens.Of(k), pruned.now);
  }

  /** When a subscriber leaves, all attempts below its context are over, and another subscriber's call tries their
      unfinished windows again. */
  lemma LeavingFreesWindows(w: World, sub: nat, t: nat, under: nat, subject: Subject)
    requires Inv(w) && t < |w.tasks| && C.IsAncestor(w.tree, sub, w.tasks[t].ctx)
    ensures var k, id := w.tasks[t].kind, w.tasks[t].tracker;
            var left := Next(w, CancelContext(sub));
            && !C.Live(left.tree, w.tasks[t].ctx)
            && (CanRestart(w, t, under) && w.gens.Of(k).store[id].ctx == Some(w.tasks[t].ctx)
                && !w.gens.Of(k).store[id].state.Done? ==>
                  var w' := Next(left, Restart(w, t, under, subject));
                  |w'.tasks| == |w.tasks| + 1 && IsAttempt(w', |w.tasks|, k, id))
  {
    C.LiveAfterCancel(w.tree, sub, w.tasks[t].ctx);
    assert TaskOk(w, t);
    StartFailsOnlyWhenDone(w.gens.Of(w.tasks[t].kind).store[w.tasks[t].tracker], Next(w, CancelContext(sub)).tree,
                           if under < |w.tree| then under else 0, subject);
  }

  // ---------------------------------------------------------------- catching up

  /** How many windows may still be issued at time `now`. */
  function Remaining(g: Generator, now: int): int {
    var whole := (now - g.start) / WINDOW_SIZE - 1 - |g.store|;
    if whole < 0 then 0 else whole
  }

  /** A window is issued exactly when one remains, and issuing it uses up exactly one. */
  lemma GrowUsesOne(g: Generator, now: int)
    requires Tiled(g)
    ensures Extend(g, now) != g <==> Remaining(g, now) > 0
    ensures Remaining(g, now) > 0 ==> Remaining(Extend(g, now), now) == Remaining(g, now) - 1
  {
    var n := |g.store|;
    assert g.last.End() == g.start + (n + 1) * WINDOW_SIZE;
    assert Extend(g, now) != g ==> |Extend(g, now).store| == n + 1;
    assert g.start + (n + 2) * WINDOW_SIZE <= now <==> n + 2 <= (now - g.start) / WINDOW_SIZE;
  }

  /** With every minute that passes one more window may be issued. */
  lemma MinutesBringWindows(w: World, k: Kind, minutes: nat)
    requires Remaining(w.gens.Of(k), w.now) > 0
    ensures var w' := Next(w, Tick(minutes * 60_000_000_000));
            Remaining(w'.gens.Of(k), w'.now) == Remaining(w.gens.Of(k), w.now) + minutes
  {
    var since := w.now - w.gens.Of(k).start;
    assert (since + minutes * WINDOW_SIZE) / WINDOW_SIZE == since / WINDOW_SIZE + minutes;
  }

  /** In every run, whatever the clock did (as long as it did not go back), every issued window had
      been over for a whole window when it was issued, so it still has. */
  lemma IssuedWindowsLag(w: World, k: Kind, i: nat)
    requires Reachable(w) && i < |w.gens.Of(k).store|
    ensures WindowAt(w.gens.Of(k).start, i).End() <= w.now - WINDOW_SIZE
  {
    ReachableInv(w);
  }
}
