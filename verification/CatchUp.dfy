/** Progress: what undisturbed calls of Generate achieve, and how many windows a generator issues. */
module CatchUp {
  import opened Wrappers
  import opened Trackers
  import opened SchedulerModel
  import opened SchedulerProperties
  import opened Generation
  import C = Contexts

  /** A live context that was not derived from any attempt's: what a subscription passes in. */
  ghost predicate Usable(w: World, parent: nat) {
    C.Live(w.tree, parent) && forall t | 0 <= t < |w.tasks| :: !C.IsAncestor(w.tree, w.tasks[t].ctx, parent)
  }

  lemma StillUsable(w: World, tree: C.Tree, ctx: Option<nat>, parent: nat)
    requires C.Live(tree, parent) && |tree| == |w.tree| &&
             forall i | 0 <= i < |tree| :: tree[i].parent == w.tree[i].parent
    requires ctx.Some? ==> !C.IsAncestor(w.tree, ctx.value, parent)
    ensures C.Live(CancelIfSet(tree, ctx), parent)
  {
    if ctx.Some? {
      C.AncestorsStay(w.tree, tree, ctx.value, parent);
      C.LiveAfterCancel(tree, ctx.value, parent);
    }
  }

  lemma OwnContextNotAbove(w: World, k: Kind, id: nat, parent: nat)
    requires Inv(w) && Usable(w, parent) && id < |w.gens.Of(k).store|
    ensures w.gens.Of(k).store[id].ctx.Some? ==> !C.IsAncestor(w.tree, w.gens.Of(k).store[id].ctx.value, parent)
  {
    if w.gens.Of(k).store[id].ctx.Some? {
      assert Owned(w, k, id);
    }
  }

  /** There is a tracker to finish or a window to issue. */
  ghost predicate HasWork(g: Generator, now: int)
    requires ActiveOk(g)
  {
    Remaining(g, now) > 0 || exists j :: 0 <= j < |g.active| && !g.store[g.active[j]].state.Done?
  }

  /** The generator with a tracker to start, if there is any, and the tree after pruning. */
  function Prepared(g: Generator, tree: C.Tree, now: int): (Generator, C.Tree)
    requires ActiveOk(g)
  {
    if g.active == [] then (Extend(g, now), tree)
    else if g.store[g.active[0]].state.Done? then
      (Extend(g.(active := []), now), CancelIfSet(tree, g.store[g.active[0]].ctx))
    else (g, tree)
  }

  lemma PreparedTiled(g: Generator, tree: C.Tree, now: int)
    requires Tiled(g)
    ensures var p := Prepared(g, tree, now).0;
            Tiled(p) && |p.active| == (if HasWork(g, now) then 1 else 0) && NoneDone(p.active, p.store)
  {
    if g.active == [] {
      GrowUsesOne(g, now);
      ExtendTiled(g, now);
    } else if g.store[g.active[0]].state.Done? {
      var kept := g.(active := []);
      assert g.active == [g.active[0]];
      assert Tiled(kept);
      GrowUsesOne(kept, now);
      ExtendTiled(kept, now);
      assert !HasWork(g, now) || Remaining(g, now) > 0;
    } else {
      assert HasWork(g, now);
    }
  }

  /** With at most one tracker the loops of Generate come down to this. */
  lemma GenerateSmall(g: Generator, tree: C.Tree, now: int, parent: nat, subject: Subject)
    requires Tiled(g) && parent < |tree|
    ensures var (p, t) := Prepared(g, tree, now);
            var r := Generate(g, tree, now, parent, subject);
            && Tiled(p) && |t| == |tree| && |p.active| == (if HasWork(g, now) then 1 else 0)
            && var s := StartAll(p.store, p.active, t, parent, subject);
               r == Generated(p.(store := s.store), s.tree, s.attempts, false)
  {
    PruneSmall(g.store, g.active, tree);
    var kept := g.(active := PruneAll(g.store, g.active, tree).active);
    assert GrowBy(kept, now, 0) == kept && GrowBy(kept, now, 1) == Extend(GrowBy(kept, now, 0), now);
    var (p, t) := Prepared(g, tree, now);
    PreparedTiled(g, tree, now);
    assert p == GrowBy(kept, now, if |kept.active| < 1 then 1 else 0);
    GenerateStages(g, tree, now, parent, subject, kept, p);
    if p.active != [] {
      StartSmall(p.store, p.active, t, parent, subject);
      StartFailsOnlyWhenDone(p.store[p.active[0]], t, parent, subject);
    }
  }

  /** The usable context survives pruning and the cancellation of a superseded attempt. */
  lemma ParentSurvives(w: World, k: Kind, parent: nat)
    requires Inv(w) && Usable(w, parent)
    ensures var (p, t) := Prepared(w.gens.Of(k), w.tree, w.now);
            && |t| == |w.tree| && (forall i | 0 <= i < |t| :: t[i].parent == w.tree[i].parent)
            && C.Live(t, parent)
            && (p.active != [] && p.active[0] < |p.store| ==> C.Live(CancelIfSet(t, p.store[p.active[0]].ctx), parent))
  {
    var g := w.gens.Of(k);
    var (p, t) := Prepared(g, w.tree, w.now);
    if g.active != [] {
      OwnContextNotAbove(w, k, g.active[0], parent);
      StillUsable(w, w.tree, g.store[g.active[0]].ctx, parent);
    }
    if p.active != [] && p.active[0] < |p.store| {
      if p.active[0] < |g.store| {
        OwnContextNotAbove(w, k, p.active[0], parent);
      }
      StillUsable(w, t, p.store[p.active[0]].ctx, parent);
    }
  }

  /** The one kept tracker is running after Generate: it was, or it has just been started. */
  lemma KeptIsRunning(w: World, k: Kind, parent: nat, subject: Subject)
    requires Inv(w) && Usable(w, parent)
    ensures var r := Generate(w.gens.Of(k), w.tree, w.now, parent, subject);
            r.gen.active != [] ==>
              r.gen.active[0] < |r.gen.store| && r.gen.store[r.gen.active[0]].ctx.Some? &&
              C.Live(r.tree, r.gen.store[r.gen.active[0]].ctx.value)
  {
    GenerateSmall(w.gens.Of(k), w.tree, w.now, parent, subject);
    ParentSurvives(w, k, parent);
    var (p, t) := Prepared(w.gens.Of(k), w.tree, w.now);
    StartSmall(p.store, p.active, t, parent, subject);
    if p.active != [] {
      C.LiveAfterWithCancel(CancelIfSet(t, p.store[p.active[0]].ctx), Some(parent), |t|);
    }
  }

  /** If the kept tracker is running its attempt is the one live attempt; without one there is none. */
  lemma LiveIfKept(w: World, k: Kind)
    requires Inv(w)
    requires var g := w.gens.Of(k);
             g.active != [] ==> g.store[g.active[0]].ctx.Some? && C.Live(w.tree, g.store[g.active[0]].ctx.value)
    ensures |LiveTasksOf(w, k)| == if w.gens.Of(k).active == [] then 0 else 1
  {
    var g := w.gens.Of(k);
    OneLiveAttemptPerKind(w, k);
    if g.active != [] {
      var id := g.active[0];
      assert Owned(w, k, id);
      var t: nat :| IsAttempt(w, t, k, id) && g.store[id].ctx == Some(w.tasks[t].ctx);
      assert t in LiveTasksOf(w, k);
    } else {
      forall t: nat | t < |w.tasks| ensures t !in LiveTasksOf(w, k) {
        assert TaskOk(w, t);
      }
      assert LiveTasksOf(w, k) == {};
    }
  }

  /** After an undisturbed Generate under a usable context exactly one attempt of the kind is live if
      there is a window left to issue or to finish, and none otherwise. */
  lemma GenerateKeepsBusy(w: World, k: Kind, parent: nat, subject: Subject)
    requires Inv(w) && Usable(w, parent)
    ensures var w' := AfterGenerate(w, k, Generate(w.gens.Of(k), w.tree, w.now, parent, subject));
            Inv(w') && |LiveTasksOf(w', k)| == if HasWork(w.gens.Of(k), w.now) then 1 else 0
  {
    var w' := AfterGenerate(w, k, Generate(w.gens.Of(k), w.tree, w.now, parent, subject));
    var steps := GenerateIsRun(w, k, parent, subject);
    InvRun(w, steps);
    GenerateSmall(w.gens.Of(k), w.tree, w.now, parent, subject);
    KeptIsRunning(w, k, parent, subject);
    LiveIfKept(w', k);
  }

  // ---------------------------------------------------------------- prompt relays

  ghost predicate AllDone(g: Generator) {
    forall i :: 0 <= i < |g.store| ==> g.store[i].state.Done?
  }

  /** The EOSE of the newest attempt, if there are more than n. */
  function AnswerNewest(w: World, n: nat): World {
    if |w.tasks| <= n then w else Next(Next(w, Check(|w.tasks| - 1, true)), Mark(|w.tasks| - 1, true))
  }

  /** Generate, then the EOSE of the attempt it started, if any. */
  function PromptRound(w: World, k: Kind, parent: nat, subject: Subject): World
    requires ActiveOk(w.gens.Of(k)) && parent < |w.tree|
  {
    AnswerNewest(AfterGenerate(w, k, Generate(w.gens.Of(k), w.tree, w.now, parent, subject)), |w.tasks|)
  }

  /** What Generate leaves as it was: the start, the older contexts' parents and the usable context. */
  ghost predicate Continues(w: World, k: Kind, parent: nat, r: Generated) {
    && r.gen.start == w.gens.Of(k).start && C.Live(r.tree, parent)
    && |w.tree| <= |r.tree| && forall i | 0 <= i < |w.tree| :: r.tree[i].parent == w.tree[i].parent
  }

  lemma GenerateIssuesNone(w: World, k: Kind, parent: nat, subject: Subject)
    requires Inv(w) && Usable(w, parent) && AllDone(w.gens.Of(k)) && Remaining(w.gens.Of(k), w.now) == 0
    ensures var r := Generate(w.gens.Of(k), w.tree, w.now, parent, subject);
            Continues(w, k, parent, r) && r.attempts == [] && r.gen.store == w.gens.Of(k).store
  {
    var g := w.gens.Of(k);
    GenerateSmall(g, w.tree, w.now, parent, subject);
    ParentSurvives(w, k, parent);
    GrowUsesOne(g, w.now);
  }

  lemma PreparedWithNew(g: Generator, tree: C.Tree, now: int)
    requires Tiled(g) && AllDone(g) && Remaining(g, now) > 0
    ensures var p := Prepared(g, tree, now).0;
            p.active == [|g.store|] && p.store == g.store + [NewTracker(g.last)] && p.start == g.start
  {
    GrowUsesOne(g, now);
  }

  /** Once everything issued is done, Generate issues and starts one more window if one remains. */
  lemma GenerateIssuesOne(w: World, k: Kind, parent: nat, subject: Subject)
    requires Inv(w) && Usable(w, parent) && AllDone(w.gens.Of(k)) && Remaining(w.gens.Of(k), w.now) > 0
    ensures var g := w.gens.Of(k);
            var r := Generate(g, w.tree, w.now, parent, subject);
            && Continues(w, k, parent, r)
            && |r.attempts| == 1 && |r.gen.store| == |g.store| + 1 && r.gen.store[..|g.store|] == g.store
            && r.attempts[0].tracker == |g.store| && r.attempts[0].ctx == |w.tree|
            && r.gen.store[|g.store|].state.Started? && C.Live(r.tree, |w.tree|)
  {
    var g := w.gens.Of(k);
    GenerateSmall(g, w.tree, w.now, parent, subject);
    ParentSurvives(w, k, parent);
    PreparedWithNew(g, w.tree, w.now);
    var (p, t) := Prepared(g, w.tree, w.now);
    StartSmall(p.store, p.active, t, parent, subject);
    C.LiveAfterWithCancel(t, Some(parent), parent);
    C.LiveAfterWithCancel(t, Some(parent), |t|);
  }

  lemma PromptRoundIssuesOne(w: World, k: Kind, parent: nat, subject: Subject)
    requires Inv(w) && Usable(w, parent) && AllDone(w.gens.Of(k))
    ensures var w' := PromptRound(w, k, parent, subject);
            var issued := if Remaining(w.gens.Of(k), w.now) > 0 then 1 else 0;
            && Inv(w') && Usable(w', parent) && AllDone(w'.gens.Of(k))
            && w'.now == w.now && w'.gens.Of(k).start == w.gens.Of(k).start
            && |w'.gens.Of(k).store| == |w.gens.Of(k).store| + issued
            && |w'.tasks| == |w.tasks| + issued
  {
    var w1 := AfterGenerate(w, k, Generate(w.gens.Of(k), w.tree, w.now, parent, subject));
    var steps := GenerateIsRun(w, k, parent, subject);
    InvRun(w, steps);
    if Remaining(w.gens.Of(k), w.now) > 0 {
      GenerateIssuesOne(w, k, parent, subject);
    } else {
      GenerateIssuesNone(w, k, parent, subject);
    }
    var issued := if Remaining(w.gens.Of(k), w.now) > 0 then 1 else 0;
    assert |w1.tasks| == |w.tasks| + issued && w1.tasks[..|w.tasks|] == w.tasks;
    AnsweredAllDone(w1, k, |w.tasks|, issued);
    UsableAfter(w, AnswerNewest(w1, |w.tasks|), parent);
  }

  lemma AnsweredAllDone(w: World, k: Kind, n: nat, issued: nat)
    requires Inv(w) && |w.tasks| == n + issued && issued <= 1 && issued <= |w.gens.Of(k).store|
    requires forall i :: 0 <= i < |w.gens.Of(k).store| - issued ==> w.gens.Of(k).store[i].state.Done?
    requires issued == 1 ==>
               && w.tasks[n].kind == k && C.Live(w.tree, w.tasks[n].ctx)
               && w.tasks[n].tracker == |w.gens.Of(k).store| - 1 &&
                 w.gens.Of(k).store[w.tasks[n].tracker].state.Started?
    ensures var w' := AnswerNewest(w, n);
            && Inv(w') && AllDone(w'.gens.Of(k)) && w'.tree == w.tree && w'.tasks == w.tasks && w'.now == w.now
            && w'.gens.Of(k).start == w.gens.Of(k).start && |w'.gens.Of(k).store| == |w.gens.Of(k).store|
  {
    if issued == 1 {
      MarkingTheNewest(w, k, n);
    }
  }

  /** The EOSE of a live attempt at the newest tracker completes what was all done before it. */
  lemma MarkingTheNewest(w: World, k: Kind, t: nat)
    requires Inv(w) && t < |w.tasks| && w.tasks[t].kind == k && C.Live(w.tree, w.tasks[t].ctx)
    requires w.tasks[t].tracker == |w.gens.Of(k).store| - 1 && w.gens.Of(k).store[w.tasks[t].tracker].state.Started?
    requires forall i :: 0 <= i < |w.gens.Of(k).store| - 1 ==> w.gens.Of(k).store[i].state.Done?
    ensures var w' := Next(Next(w, Check(t, true)), Mark(t, true));
            && Inv(w') && AllDone(w'.gens.Of(k)) && w'.tree == w.tree && w'.tasks == w.tasks && w'.now == w.now
            && w'.gens.Of(k).start == w.gens.Of(k).start && |w'.gens.Of(k).store| == |w.gens.Of(k).store|
  {
    InvNext(w, Check(t, true));
    InvNext(Next(w, Check(t, true)), Mark(t, true));
  }

  lemma UsableAfter(w: World, w': World, parent: nat)
    requires Usable(w, parent) && TasksOk(w) && C.Live(w'.tree, parent)
    requires |w.tree| <= |w'.tree| && forall i | 0 <= i < |w.tree| :: w'.tree[i].parent == w.tree[i].parent
    requires |w.tasks| <= |w'.tasks| && w'.tasks[..|w.tasks|] == w.tasks
    requires forall t | |w.tasks| <= t < |w'.tasks| :: w'.tasks[t].ctx >= |w.tree|
    ensures Usable(w', parent)
  {
    forall t | 0 <= t < |w'.tasks| ensures !C.IsAncestor(w'.tree, w'.tasks[t].ctx, parent) {
      if t < |w.tasks| {
        assert w'.tasks[t] == w.tasks[t];
        C.AncestorsStay(w.tree, w'.tree, w.tasks[t].ctx, parent);
      } else if C.IsAncestor(w'.tree, w'.tasks[t].ctx, parent) {
        C.AncestorsAreOlder(w'.tree, w'.tasks[t].ctx, parent);
      }
    }
  }

  function PromptRounds(w: World, k: Kind, parent: nat, subject: Subject, rounds: nat): World
    requires Inv(w) && Usable(w, parent) && AllDone(w.gens.Of(k))
    ensures var w' := PromptRounds(w, k, parent, subject, rounds);
            && Inv(w') && Usable(w', parent) && AllDone(w'.gens.Of(k))
            && w'.now == w.now && w'.gens.Of(k).start == w.gens.Of(k).start
  {
    if rounds == 0 then w
    else
      var before := PromptRounds(w, k, parent, subject, rounds - 1);
      PromptRoundIssuesOne(before, k, parent, subject);
      PromptRound(before, k, parent, subject)
  }

  lemma RemainingByCount(g: Generator, g': Generator, now: int)
    requires g'.start == g.start && |g'.store| >= |g.store|
    ensures Remaining(g', now) == if Remaining(g, now) <= |g'.store| - |g.store| then 0
                                  else Remaining(g, now) - (|g'.store| - |g.store|)
  {
  }

  /** The rounds have issued n windows and started as many attempts. */
  ghost predicate HaveIssued(w: World, w': World, k: Kind, n: int) {
    |w'.gens.Of(k).store| - |w.gens.Of(k).store| == n && |w'.tasks| - |w.tasks| == n
  }

  /** With `left` windows remaining at the start, a round issues one more if not all of them have been issued. */
  lemma OneMorePromptRound(w: World, before: World, k: Kind, parent: nat, subject: Subject, n: nat, left: int)
    requires Inv(before) && Usable(before, parent) && AllDone(before.gens.Of(k)) && HaveIssued(w, before, k, n)
    requires before.now == w.now && before.gens.Of(k).start == w.gens.Of(k).start
    requires left == Remaining(w.gens.Of(k), w.now)
    ensures HaveIssued(w, PromptRound(before, k, parent, subject), k, if n < left then n + 1 else n)
  {
    RemainingByCount(w.gens.Of(k), before.gens.Of(k), w.now);
    PromptRoundIssuesOne(before, k, parent, subject);
  }

  /** At a fixed clock, with every attempt answered at once, n rounds issue min(n, remaining) windows. */
  lemma PromptRoundsIssue(w: World, k: Kind, parent: nat, subject: Subject, rounds: nat)
    requires Inv(w) && Usable(w, parent) && AllDone(w.gens.Of(k))
    ensures var left := Remaining(w.gens.Of(k), w.now);
            HaveIssued(w, PromptRounds(w, k, parent, subject, rounds), k, if rounds < left then rounds else left)
  {
    var left := Remaining(w.gens.Of(k), w.now);
    var n, before := 0, w;
    for i := 0 to rounds
      invariant before == PromptRounds(w, k, parent, subject, i)
      invariant n == (if i < left then i else left) && HaveIssued(w, before, k, n)
    {
      OneMorePromptRound(w, before, k, parent, subject, n, left);
      before := PromptRound(before, k, parent, subject);
      n := if n < left then n + 1 else n;
    }
  }

  /** A new generator issues exactly the fifteen windows from sixteen minutes to one minute ago, and stops. */
  lemma NewGeneratorIssuesFifteen(now: int, k: Kind, subject: Subject, rounds: nat)
    requires rounds >= 15
    ensures var w := Next(NewWorld(now, now, now), Derive(None));
            && Inv(w) && Usable(w, 0) && AllDone(w.gens.Of(k))
            && var w' := PromptRounds(w, k, 0, subject, rounds);
               && |w'.tasks| == |w'.gens.Of(k).store| == 15
               && w'.gens.Of(k).store[0].window.start == now - 16 * 60_000_000_000
               && w'.gens.Of(k).store[14].window.End() == now - 60_000_000_000
  {
    var w := Next(NewWorld(now, now, now), Derive(None));
    InvInitially(now, now, now);
    InvNext(NewWorld(now, now, now), Derive(None));
    C.LiveAfterWithCancel([], None, 0);
    PromptRoundsIssue(w, k, 0, subject, rounds);
    assert Tiled(PromptRounds(w, k, 0, subject, rounds).gens.Of(k));
  }
}
