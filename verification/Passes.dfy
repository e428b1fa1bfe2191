/** Passes over a relay's subscriptions as a state machine, with anything coming in between its moves. */
module Passes {
  import opened Sequences
  import opened Wrappers
  import opened TimeWindows
  import opened Trackers
  import opened SchedulerModel
  import opened SchedulerProperties
  import C = Contexts

  /** Within getTasksToPush for a subscription with what the kinds before have started, or pushing what it
      returned. Attempts go by their numbers. */
  datatype Phase = Idle | Collecting(sub: nat, result: seq<nat>) | Pushing(sub: nat, queue: seq<nat>)

  /** `sent` went through a channel, `dropped` were started by a call that then failed, `abandoned` were
      not pushed because the subscription's context was done. */
  datatype Pass = Pass(w: World, phase: Phase, sent: set<nat>, dropped: set<nat>, abandoned: set<nat>, failures: nat)

  datatype Move =
    | Other(s: Step)
    | Begin(sub: nat)
    | PruneKept(kind: Kind, id: nat)
    | GrowList(kind: Kind)
    | StartKept(kind: Kind, id: nat, subject: Subject)
    | Return
    | Send
    | GiveUp
    | End

  /** A call that collects, or pushes, for the subscription with this context. */
  predicate Collects(p: Pass, ctx: nat) {
    p.phase.Collecting? && p.phase.sub == ctx
  }

  predicate Pushes(p: Pass, ctx: nat) {
    p.phase.Pushing? && p.phase.sub == ctx
  }

  predicate IsLive(tasks: seq<Task>, t: nat, tree: C.Tree) {
    t < |tasks| && C.Live(tree, tasks[t].ctx)
  }

  /** What other goroutines do. Only an attempt that was sent has somebody to call back. */
  predicate IsOther(p: Pass, s: Step) {
    s.Tick? || s.Derive? || s.CancelContext? || s.Mark? || (s.Check? && s.task in p.sent)
  }

  predicate Enabled(p: Pass, m: Move) {
    match m
    case Other(s) => IsOther(p, s)
    case Begin(sub) => p.phase.Idle? && sub < |p.w.tree|
    case PruneKept(_, _) => p.phase.Collecting?
    case GrowList(_) => p.phase.Collecting?
    case StartKept(k, id, _) => p.phase.Collecting? && p.phase.sub < |p.w.tree| && IsKept(p.w, k, id)
    case Return => p.phase.Collecting?
    case Send => p.phase.Pushing? && p.phase.queue != []
    case GiveUp => p.phase.Pushing? && !C.Live(p.w.tree, p.phase.sub)
    case End => p.phase.Pushing? && p.phase.queue == []
  }

  predicate IsKept(w: World, k: Kind, id: nat) {
    id in w.gens.Of(k).active && id < |w.gens.Of(k).store|
  }

  /** MaybeStart's error: the kept tracker was marked as done after it was looked at for pruning. */
  predicate StartFails(p: Pass, m: Move) {
    m.StartKept? && IsKept(p.w, m.kind, m.id) && p.w.gens.Of(m.kind).store[m.id].state.Done?
  }

  function Elements(s: seq<nat>): set<nat> {
    set t | t in s
  }

  function Next(p: Pass, m: Move): Pass
    requires Enabled(p, m)
  {
    match m
    case Other(s) => p.(w := SchedulerModel.Next(p.w, s))
    case Begin(sub) => p.(phase := Collecting(sub, []))
    case PruneKept(k, id) => p.(w := SchedulerModel.Next(p.w, Prune(k, id)))
    case GrowList(k) => p.(w := SchedulerModel.Next(p.w, Grow(k)))
    case StartKept(k, id, subject) =>
      if StartFails(p, m) then
        p.(phase := Idle, dropped := p.dropped + Elements(p.phase.result), failures := p.failures + 1)
      else
        var w' := SchedulerModel.Next(p.w, Start(k, id, p.phase.sub, subject));
        var started := if |w'.tasks| > |p.w.tasks| then [|p.w.tasks|] else [];
        p.(w := w', phase := Collecting(p.phase.sub, p.phase.result + started))
    case Return => p.(phase := Pushing(p.phase.sub, p.phase.result))
    case Send => p.(phase := Pushing(p.phase.sub, p.phase.queue[1..]), sent := p.sent + {p.phase.queue[0]})
    case GiveUp => p.(phase := Idle, abandoned := p.abandoned + Elements(p.phase.queue))
    case End => p.(phase := Idle)
  }

  ghost predicate Run(p: Pass, moves: seq<Move>, p': Pass)
    decreases |moves|
  {
    if moves == [] then p' == p else Enabled(p, moves[0]) && Run(Next(p, moves[0]), moves[1..], p')
  }

  ghost predicate Leads(p: Pass, p': Pass) {
    exists moves :: Run(p, moves, p')
  }

  lemma {:induction false} RunJoin(a: Pass, s: seq<Move>, b: Pass, t: seq<Move>, c: Pass)
    requires Run(a, s, b) && Run(b, t, c)
    ensures Run(a, s + t, c)
    decreases |s|
  {
    if s == [] {
      assert s + t == t;
    } else {
      RunJoin(Next(a, s[0]), s[1..], b, t, c);
      assert (s + t)[1..] == s[1..] + t;
    }
  }

  lemma LeadsJoin(a: Pass, b: Pass, c: Pass)
    requires Leads(a, b) && Leads(b, c)
    ensures Leads(a, c)
  {
    var s :| Run(a, s, b);
    var t :| Run(b, t, c);
    RunJoin(a, s, b, t, c);
  }

  lemma LeadsSame(p: Pass)
    ensures Leads(p, p)
  {
    assert Run(p, [], p);
  }

  lemma LeadsOne(p: Pass, m: Move)
    requires Enabled(p, m)
    ensures Leads(p, Next(p, m))
  {
    assert Run(Next(p, m), [m][1..], Next(p, m));
    assert Run(p, [m], Next(p, m));
  }

  function NewPass(global: int, author: int, tag: int): Pass {
    Pass(NewWorld(global, author, tag), Idle, {}, {}, {}, 0)
  }

  // ---------------------------------------------------------------- every attempt is accounted for

  function Pending(p: Pass): seq<nat> {
    match p.phase
    case Idle => []
    case Collecting(_, result) => result
    case Pushing(_, queue) => queue
  }

  /** Attempt t hangs directly below the context. */
  ghost predicate IsBelow(w: World, t: nat, sub: nat) {
    t < |w.tasks| && w.tasks[t].ctx < |w.tree| && w.tree[w.tasks[t].ctx].parent == Some(sub)
  }

  ghost predicate PendingOk(p: Pass) {
    && NoDuplicates(Pending(p))
    && (!p.phase.Idle? ==> p.phase.sub < |p.w.tree|)
    && forall t :: t in Pending(p) ==>
      IsBelow(p.w, t, p.phase.sub) && t !in p.sent && t !in p.dropped && t !in p.abandoned
  }

  ghost predicate Accounted(p: Pass) {
    && (forall t: nat :: t < |p.w.tasks| <==> t in p.sent || t in p.dropped || t in p.abandoned || t in Pending(p))
    && p.sent !! p.dropped && p.sent !! p.abandoned && p.dropped !! p.abandoned
    && (forall t :: t in p.abandoned && t < |p.w.tasks| ==> !C.Live(p.w.tree, p.w.tasks[t].ctx))
    && forall t :: t in p.w.eose ==> t in p.sent
  }

  ghost predicate PassInv(p: Pass) {
    Inv(p.w) && PendingOk(p) && Accounted(p)
  }

  /** Contexts keep their parents, and none comes to life. */
  ghost predicate Later(tree: C.Tree, tree': C.Tree) {
    && |tree| <= |tree'| && (forall i :: 0 <= i < |tree| ==> tree'[i].parent == tree[i].parent)
    && forall c: nat :: c < |tree| && C.Live(tree', c) ==> C.Live(tree, c)
  }

  lemma StepIsLater(w: World, s: Step)
    ensures Later(w.tree, SchedulerModel.Next(w, s).tree)
  {
    forall c: nat | c < |w.tree| && C.Live(SchedulerModel.Next(w, s).tree, c) ensures C.Live(w.tree, c) {
      StepKillsOnly(w, s, c);
    }
  }

  /** A step that starts nothing leaves the accounts as they are. */
  lemma NothingStarted(p: Pass, w': World)
    requires PassInv(p) && Inv(w') && w'.tasks == p.w.tasks && Later(p.w.tree, w'.tree)
    requires forall t :: t in w'.eose ==> t in p.sent
    ensures PassInv(p.(w := w'))
  {
    var p' := p.(w := w');
    assert Pending(p') == Pending(p);
    forall t | t in p'.abandoned && t < |w'.tasks| ensures !C.Live(w'.tree, w'.tasks[t].ctx) {
      assert TaskOk(p.w, t);
    }
  }

  lemma StartedOne(w: World, k: Kind, id: nat, under: nat, subject: Subject)
    requires Inv(w) && IsKept(w, k, id) && under < |w.tree|
    ensures var w' := SchedulerModel.Next(w, Start(k, id, under, subject));
            && w.tasks <= w'.tasks && |w'.tasks| <= |w.tasks| + 1
            && (|w'.tasks| > |w.tasks| ==> IsBelow(w', |w.tasks|, under))
            && (|w'.tasks| > |w.tasks| <==>
                !w.gens.Of(k).store[id].state.Done? && IsDead(w.gens.Of(k).store[id], w.tree))
  {
    StartFailsOnlyWhenDone(w.gens.Of(k).store[id], w.tree, under, subject);
  }

  lemma AccountsAfterStart(p: Pass, w': World)
    requires PassInv(p) && p.phase.Collecting? && Inv(w') && Later(p.w.tree, w'.tree) && w'.eose == p.w.eose
    requires p.w.tasks <= w'.tasks && |w'.tasks| == |p.w.tasks| + 1 && IsBelow(w', |p.w.tasks|, p.phase.sub)
    ensures PassInv(p.(w := w', phase := Collecting(p.phase.sub, p.phase.result + [|p.w.tasks|])))
  {
    var p' := p.(w := w', phase := Collecting(p.phase.sub, p.phase.result + [|p.w.tasks|]));
    assert forall t :: t in Pending(p') <==> t in Pending(p) || t == |p.w.tasks|;
    assert |p.w.tasks| !in Pending(p);
    forall t: nat | t < |p.w.tasks| ensures w'.tasks[t] == p.w.tasks[t] && w'.tasks[t].ctx < |p.w.tree| {
      assert TaskOk(p.w, t);
    }
    forall t | t in Pending(p') ensures IsBelow(w', t, p.phase.sub) {
      assert t != |p.w.tasks| ==> IsBelow(p.w, t, p.phase.sub);
    }
  }

  lemma InvStartKept(p: Pass, k: Kind, id: nat, subject: Subject)
    requires PassInv(p) && Enabled(p, StartKept(k, id, subject))
    ensures PassInv(Next(p, StartKept(k, id, subject)))
  {
    if !StartFails(p, StartKept(k, id, subject)) {
      var s := Start(k, id, p.phase.sub, subject);
      InvNext(p.w, s);
      StepIsLater(p.w, s);
      StartedOne(p.w, k, id, p.phase.sub, subject);
      var w' := SchedulerModel.Next(p.w, s);
      if |w'.tasks| > |p.w.tasks| {
        AccountsAfterStart(p, w');
      } else {
        NothingStarted(p, w');
        assert p.phase.result + [] == p.phase.result;
      }
    }
  }

  lemma InvPushing(p: Pass, m: Move)
    requires PassInv(p) && Enabled(p, m) && (m.Return? || m.Send? || m.GiveUp? || m.End? || m.Begin?)
    ensures PassInv(Next(p, m))
  {
    var p' := Next(p, m);
    if m.Send? {
      var queue := p.phase.queue;
      assert queue == [queue[0]] + queue[1..];
      assert queue[0] !in queue[1..];
    }
    if m.GiveUp? {
      forall t | t in p.phase.queue ensures !C.Live(p.w.tree, p.w.tasks[t].ctx) {
        assert IsBelow(p.w, t, p.phase.sub);
      }
    }
  }

  lemma PassInvNext(p: Pass, m: Move)
    requires PassInv(p) && Enabled(p, m)
    ensures PassInv(Next(p, m))
  {
    match m
    case StartKept(k, id, subject) => InvStartKept(p, k, id, subject);
    case Other(s) => InvWorldStep(p, s);
    case PruneKept(k, id) => InvWorldStep(p, Prune(k, id));
    case GrowList(k) => InvWorldStep(p, Grow(k));
    case _ => InvPushing(p, m);
  }

  lemma InvWorldStep(p: Pass, s: Step)
    requires PassInv(p) && !s.Start? && (s.Check? ==> s.task in p.sent)
    ensures PassInv(p.(w := SchedulerModel.Next(p.w, s)))
  {
    InvNext(p.w, s);
    StepIsLater(p.w, s);
    NothingStarted(p, SchedulerModel.Next(p.w, s));
  }

  lemma {:induction false} PassInvRun(p: Pass, moves: seq<Move>, p': Pass)
    requires PassInv(p) && Run(p, moves, p')
    ensures PassInv(p')
    decreases |moves|
  {
    if moves != [] {
      PassInvNext(p, moves[0]);
      PassInvRun(Next(p, moves[0]), moves[1..], p');
    }
  }

  lemma PassInvLeads(p: Pass, p': Pass)
    requires PassInv(p) && Leads(p, p')
    ensures PassInv(p')
  {
    var moves :| Run(p, moves, p');
    PassInvRun(p, moves, p');
  }

  lemma NewPassInv(global: int, author: int, tag: int)
    ensures PassInv(NewPass(global, author, tag))
  {
    InvInitially(global, author, tag);
  }

  ghost predicate Reachable(p: Pass) {
    exists global: int, author: int, tag: int :: Leads(NewPass(global, author, tag), p)
  }

  lemma ReachablePassInv(p: Pass)
    requires Reachable(p)
    ensures PassInv(p)
  {
    var global: int, author: int, tag: int :| Leads(NewPass(global, author, tag), p);
    NewPassInv(global, author, tag);
    PassInvLeads(NewPass(global, author, tag), p);
  }

  lemma ReachableOn(p: Pass, p': Pass)
    requires Reachable(p) && Leads(p, p')
    ensures Reachable(p')
  {
    var global: int, author: int, tag: int :| Leads(NewPass(global, author, tag), p);
    LeadsJoin(NewPass(global, author, tag), p, p');
  }

  /** Nothing was started, sent or lost in between. */
  ghost predicate SameAttempts(p: Pass, p': Pass) {
    p' == p.(w := p'.w) && p'.w.tasks == p.w.tasks && Leads(p, p')
  }

  /** Only other goroutines moved: the lists of trackers are the same, too. */
  ghost predicate OnlyOthers(p: Pass, p': Pass) {
    SameAttempts(p, p') && forall k: Kind :: p'.w.gens.Of(k).active == p.w.gens.Of(k).active
  }

  predicate StartsNothing(m: Move) {
    m.Other? || m.PruneKept? || m.GrowList?
  }

  lemma SameAfter(p: Pass, m: Move)
    requires Enabled(p, m) && StartsNothing(m)
    ensures SameAttempts(p, Next(p, m))
  {
    LeadsOne(p, m);
  }

  lemma SameJoin(a: Pass, b: Pass, c: Pass)
    requires SameAttempts(a, b) && SameAttempts(b, c)
    ensures SameAttempts(a, c)
  {
    LeadsJoin(a, b, c);
  }

  lemma MoveIsLater(p: Pass, m: Move)
    requires Enabled(p, m)
    ensures Later(p.w.tree, Next(p, m).w.tree)
  {
    match m
    case Other(s) => StepIsLater(p.w, s);
    case PruneKept(k, id) => StepIsLater(p.w, Prune(k, id));
    case GrowList(k) => StepIsLater(p.w, Grow(k));
    case StartKept(k, id, subject) => StepIsLater(p.w, Start(k, id, p.phase.sub, subject));
    case _ =>
  }

  lemma {:induction false} RunIsLater(p: Pass, moves: seq<Move>, p': Pass)
    requires Run(p, moves, p')
    ensures Later(p.w.tree, p'.w.tree) && p.failures <= p'.failures
    decreases |moves|
  {
    if moves != [] {
      MoveIsLater(p, moves[0]);
      RunIsLater(Next(p, moves[0]), moves[1..], p');
    }
  }

  lemma LeadsIsLater(p: Pass, p': Pass)
    requires Leads(p, p')
    ensures Later(p.w.tree, p'.w.tree) && p.failures <= p'.failures
  {
    var moves :| Run(p, moves, p');
    RunIsLater(p, moves, p');
  }

  // ---------------------------------------------------------------- what gets served

  /** What a call does for a kind: its kept tracker's context is live, or no window remains to be issued; or the
      subscription's own context is done. */
  ghost predicate Busy(w: World, k: Kind, sub: nat) {
    || !C.Live(w.tree, sub)
    || (w.gens.Of(k).active == [] && Remaining(w.gens.Of(k), w.now) == 0)
    || exists id: nat :: IsKept(w, k, id) && HasLiveContext(w, w.gens.Of(k).store[id])
  }

  ghost predicate HasLiveContext(w: World, t: Tracker) {
    t.ctx.Some? && C.Live(w.tree, t.ctx.value)
  }

  ghost predicate WasBusy(p: Pass, p': Pass, k: Kind, sub: nat) {
    exists q :: Leads(p, q) && Leads(q, p') && Busy(q.w, k, sub)
  }

  lemma WasBusyWithin(a: Pass, b: Pass, c: Pass, d: Pass, k: Kind, sub: nat)
    requires Leads(a, b) && WasBusy(b, c, k, sub) && Leads(c, d)
    ensures WasBusy(a, d, k, sub)
  {
    var q :| Leads(b, q) && Leads(q, c) && Busy(q.w, k, sub);
    LeadsJoin(a, b, q);
    LeadsJoin(q, c, d);
  }

  // ---------------------------------------------------------------- what gets lost

  /** In between calls, however they were disturbed, a live attempt was not handed to a subscriber iff it was
      dropped by a call that failed. */
  lemma UnsentIffDropped(p: Pass, t: nat)
    requires Reachable(p) && p.phase.Idle? && IsLive(p.w.tasks, t, p.w.tree)
    ensures t !in p.sent <==> t in p.dropped
  {
    ReachablePassInv(p);
  }

  /** The move at which a call loses attempt t: some kind's kept tracker is done when its start is reached,
      and t was started for a kind before. */
  ghost predicate Drops(p: Pass, m: Move, t: nat) {
    p.phase.Collecting? && t in p.phase.result && StartFails(p, m)
  }

  lemma DropsIff(p: Pass, m: Move, t: nat)
    requires PassInv(p) && Enabled(p, m) && t !in p.dropped
    ensures t in Next(p, m).dropped <==> Drops(p, m, t)
  {
  }

  /** It is move i of the run, made in state q. */
  ghost predicate DroppedAt(p: Pass, moves: seq<Move>, q: Pass, i: nat, t: nat) {
    i < |moves| && Run(p, moves[..i], q) && Drops(q, moves[i], t)
  }

  lemma DroppedLater(p: Pass, moves: seq<Move>, q: Pass, i: nat, t: nat)
    requires moves != [] && Enabled(p, moves[0])
    ensures DroppedAt(p, moves, q, i + 1, t) <==> DroppedAt(Next(p, moves[0]), moves[1..], q, i, t)
  {
    if i + 1 < |moves| {
      assert moves[..i + 1][1..] == moves[1..][..i];
    }
  }

  /** Over every run: an attempt is among the dropped ones iff at some move a call dropped it. */
  lemma {:induction false} DroppedIff(p: Pass, moves: seq<Move>, p': Pass, t: nat)
    requires PassInv(p) && Run(p, moves, p') && t !in p.dropped
    ensures t in p'.dropped <==> exists q: Pass, i :: DroppedAt(p, moves, q, i, t)
    decreases |moves|
  {
    if moves == [] {
      return;
    }
    var next := Next(p, moves[0]);
    PassInvNext(p, moves[0]);
    DropsIff(p, moves[0], t);
    assert Run(p, moves[..0], p);
    if t in next.dropped {
      DroppedStays(next, moves[1..], p', t);
      assert DroppedAt(p, moves, p, 0, t);
      return;
    }
    DroppedIff(next, moves[1..], p', t);
    if q: Pass, i: nat :| DroppedAt(next, moves[1..], q, i, t) {
      DroppedLater(p, moves, q, i, t);
    }
    if q: Pass, i: nat :| DroppedAt(p, moves, q, i, t) {
      assert i > 0;
      DroppedLater(p, moves, q, i - 1, t);
    }
  }

  lemma {:induction false} DroppedStays(p: Pass, moves: seq<Move>, p': Pass, t: nat)
    requires Run(p, moves, p') && t in p.dropped
    ensures t in p'.dropped
    decreases |moves|
  {
    if moves != [] {
      DroppedStays(Next(p, moves[0]), moves[1..], p', t);
    }
  }

  // ---------------------------------------------------------------- and what that costs

  /** The attempts started for a kind. */
  ghost function StartedFor(w: World, k: Kind): set<nat> {
    set t: nat | t < |w.tasks| && w.tasks[t].kind == k
  }

  /** While an attempt's context lives, no window of its kind is issued and no attempt of it started. */
  lemma LiveAttemptBlocksStep(w: World, s: Step, t: nat)
    requires Inv(w) && IsLive(w.tasks, t, SchedulerModel.Next(w, s).tree)
    ensures var k := w.tasks[t].kind;
            var w' := SchedulerModel.Next(w, s);
            && w.tasks <= w'.tasks && StartedFor(w', k) == StartedFor(w, k) &&
              |w'.gens.Of(k).store| == |w.gens.Of(k).store|
  {
    var k := w.tasks[t].kind;
    assert TaskOk(w, t);
    StepKillsOnly(w, s, w.tasks[t].ctx);
    var active := w.gens.Of(k).active;
    assert w.tasks[t].tracker in active && active == [w.tasks[t].tracker];
    if s.Start? && s.kind == k && s.id in active && s.under < |w.tree| {
      var tracker := w.gens.Of(k).store[s.id];
      if StartAttempt(tracker, w.tree, s.under, s.subject).NewAttempt? {
        StartLive(tracker, w.tree, s.under, s.subject, w.tasks[t].ctx);
      }
    }
  }

  lemma {:induction false} LiveAttemptBlocksKind(w: World, steps: seq<Step>, t: nat)
    requires Inv(w) && IsLive(w.tasks, t, SchedulerModel.Run(w, steps).tree)
    ensures var k := w.tasks[t].kind;
            var w' := SchedulerModel.Run(w, steps);
            && w.tasks <= w'.tasks && StartedFor(w', k) == StartedFor(w, k) &&
              |w'.gens.Of(k).store| == |w.gens.Of(k).store|
  {
    if steps != [] {
      var before := steps[..|steps| - 1];
      var w1 := SchedulerModel.Run(w, before);
      InvRun(w, before);
      assert TaskOk(w, t);
      OnceDeadAlwaysDead(w, before, w.tasks[t].ctx);
      StepKillsOnly(w1, steps[|steps| - 1], w.tasks[t].ctx);
      LiveAttemptBlocksKind(w, before, t);
      LiveAttemptBlocksStep(w1, steps[|steps| - 1], t);
    }
  }

  /** A move is at most one step of the scheduler. */
  lemma MoveIsStep(p: Pass, m: Move) returns (steps: seq<Step>)
    requires Enabled(p, m)
    ensures Next(p, m).w == SchedulerModel.Run(p.w, steps)
  {
    steps := match m
      case Other(s) => [s]
      case PruneKept(k, id) => [Prune(k, id)]
      case GrowList(k) => [Grow(k)]
      case StartKept(k, id, subject) => if StartFails(p, m) then [] else [Start(k, id, p.phase.sub, subject)]
      case _ => [];
    if steps != [] {
      assert steps == [steps[0]] && steps[..0] == [];
    }
  }

  /** Whatever holds over every run of the scheduler holds over every run of passes. */
  lemma {:induction false} PassIsRun(p: Pass, moves: seq<Move>, p': Pass) returns (steps: seq<Step>)
    requires Run(p, moves, p')
    ensures p'.w == SchedulerModel.Run(p.w, steps)
    decreases |moves|
  {
    if moves == [] {
      return [];
    }
    var first := MoveIsStep(p, moves[0]);
    var rest := PassIsRun(Next(p, moves[0]), moves[1..], p');
    RunAppend(p.w, first, rest);
    return first + rest;
  }

  /** Nobody works on a dropped attempt. */
  lemma {:induction false} NoCallbackForDropped(p: Pass, moves: seq<Move>, p': Pass, t: nat)
    requires PassInv(p) && Run(p, moves, p') && t in p.dropped
    ensures t in p'.dropped && t !in p'.sent && t !in p'.w.eose
    decreases |moves|
  {
    if moves != [] {
      PassInvNext(p, moves[0]);
      NoCallbackForDropped(Next(p, moves[0]), moves[1..], p', t);
    }
  }

  /** So a dropped attempt stops its kind for as long as its context lives: nobody works on it, no further
      window of the kind is issued and no attempt of the kind is started, in whatever passes follow. */
  lemma DroppedBlocksKind(p: Pass, moves: seq<Move>, p': Pass, t: nat)
    requires PassInv(p) && Run(p, moves, p') && t in p.dropped
    requires IsLive(p.w.tasks, t, p'.w.tree)
    ensures t !in p'.sent && t !in p'.w.eose
    ensures var k := p.w.tasks[t].kind;
            StartedFor(p'.w, k) == StartedFor(p.w, k) && |p'.w.gens.Of(k).store| == |p.w.gens.Of(k).store|
  {
    NoCallbackForDropped(p, moves, p', t);
    var steps := PassIsRun(p, moves, p');
    LiveAttemptBlocksKind(p.w, steps, t);
  }

  // ---------------------------------------------------------------- a run that loses an attempt

  lemma Go(start: Pass, p: Pass, m: Move) returns (p': Pass)
    requires Leads(start, p) && Enabled(p, m)
    ensures p' == Next(p, m) && Leads(start, p')
  {
    LeadsOne(p, m);
    LeadsJoin(start, p, Next(p, m));
    p' := Next(p, m);
  }

  /** Both kinds have their first windows tracked, run by attempts 0 and 1 below context 0. */
  ghost predicate BothStarted(p: Pass) {
    && p.w.tree == [C.Node(None, false), C.Node(Some(0), false), C.Node(Some(0), false)]
    && |p.w.tasks| == 2 && p.w.tasks[0].kind == Global && p.w.tasks[0].tracker == 0 && p.w.tasks[0].ctx == 1
    && p.w.tasks[1].kind == Author && p.w.tasks[1].tracker == 0 && p.w.tasks[1].ctx == 2
    && HasOne(p.w.gens.global, 1, p.w.now) && HasOne(p.w.gens.author, 2, p.w.now)
    && p.dropped == {}
  }

  ghost predicate HasOne(g: Generator, ctx: nat, now: int) {
    && |g.store| == 1 && g.active == [0] && g.store[0].ctx == Some(ctx) && g.store[0].state.Started?
    && g.last == WindowAt(now - INITIAL_WINDOW_AGE, 1)
  }

  lemma FirstStart(start: Pass, p: Pass, k: Kind, now: int, subject: Subject) returns (p': Pass)
    requires Leads(start, p) && p.phase.Collecting? && p.phase.sub < |p.w.tree| && p.w.now == now
    requires p.w.gens.Of(k) == NewGenerator(now)
    ensures Leads(start, p') && HasOne(p'.w.gens.Of(k), |p.w.tree|, now)
    ensures p'.w.tree == p.w.tree + [C.Node(Some(p.phase.sub), false)] && p'.w.now == now
    ensures |p'.w.tasks| == |p.w.tasks| + 1 && p'.w.tasks[..|p.w.tasks|] == p.w.tasks
    ensures var t := p'.w.tasks[|p.w.tasks|]; t.kind == k && t.tracker == 0 && t.ctx == |p.w.tree|
    ensures p'.phase == Collecting(p.phase.sub, p.phase.result + [|p.w.tasks|])
    ensures p'.sent == p.sent && p'.dropped == p.dropped && forall k' :: k' != k ==> p'.w.gens.Of(k') == p.w.gens.Of(k')
  {
    p' := Go(start, p, GrowList(k));
    assert p'.w.gens.Of(k) == Extend(NewGenerator(now), now);
    p' := Go(start, p', StartKept(k, 0, subject));
  }

  lemma BothKindsStart(now: int, subject: Subject) returns (p: Pass)
    ensures Leads(NewPass(now, now, now), p) && BothStarted(p) && p.phase == Collecting(0, [0, 1]) && p.w.now == now
    ensures p.sent == {}
  {
    var start := NewPass(now, now, now);
    LeadsSame(start);
    p := Go(start, start, Other(Derive(None)));
    p := Go(start, p, Begin(0));
    p := FirstStart(start, p, Global, now, subject);
    p := FirstStart(start, p, Author, now, subject);
  }

  lemma BothAreSent(now: int, subject: Subject) returns (p: Pass)
    ensures Leads(NewPass(now, now, now), p) && BothStarted(p) && p.phase.Idle? && p.w.now == now && p.sent == {0, 1}
  {
    var start := NewPass(now, now, now);
    p := BothKindsStart(now, subject);
    p := Go(start, p, Return);
    p := Go(start, p, Send);
    p := Go(start, p, Send);
    p := Go(start, p, End);
  }

  /** The relay answers the first one. */
  lemma GlobalIsDone(now: int, subject: Subject) returns (p: Pass)
    ensures Leads(NewPass(now, now, now), p) && p.phase.Idle? && p.w.now == now && p.sent == {0, 1} && p.dropped == {}
    ensures p.w.tree == [C.Node(None, false), C.Node(Some(0), false), C.Node(Some(0), false)]
    ensures |p.w.tasks| == 2 && p.w.tasks[1].kind == Author && p.w.tasks[1].tracker == 0 && p.w.tasks[1].ctx == 2
    ensures HasOne(p.w.gens.author, 2, now)
    ensures var g := p.w.gens.global;
            && |g.store| == 1 && g.active == [0] && g.store[0].ctx == Some(1) && g.store[0].state.Done?
            && g.last == WindowAt(now - INITIAL_WINDOW_AGE, 1)
  {
    var start := NewPass(now, now, now);
    p := BothAreSent(now, subject);
    assert C.Live(p.w.tree, 0);
    p := Go(start, p, Other(Check(0, true)));
    p := Go(start, p, Other(Mark(0, true)));
  }

  /** The next call starts the global kind's second window. */
  lemma GlobalStartsNext(now: int, subject: Subject) returns (p: Pass)
    ensures Leads(NewPass(now, now, now), p) && p.phase == Collecting(0, [2]) && p.w.now == now && p.sent == {0, 1}
    ensures p.dropped == {}
    ensures p.w.tree == [C.Node(None, false), C.Node(Some(0), true), C.Node(Some(0), false), C.Node(Some(0), false)]
    ensures |p.w.tasks| == 3 && p.w.tasks[1].kind == Author && p.w.tasks[1].tracker == 0 && p.w.tasks[1].ctx == 2
    ensures p.w.tasks[2].kind == Global && p.w.tasks[2].ctx == 3
    ensures HasOne(p.w.gens.author, 2, now)
  {
    var start := NewPass(now, now, now);
    p := GlobalIsDone(now, subject);
    p := Go(start, p, Begin(0));
    p := Go(start, p, PruneKept(Global, 0));
    assert p.w.gens.global.active == [] && Remove([0], 0) == [];
    p := Go(start, p, GrowList(Global));
    assert p.w.gens.global.active == [1] && p.w.gens.global.store[1].state.New?;
    p := Go(start, p, StartKept(Global, 1, subject));
  }

  /** The author kind's tracker is not done when the call prunes, but it is when the call comes to start it:
      the call fails and drops the global kind's attempt, which is live and belongs to nobody. */
  lemma EoseDropsAttempt(now: int, subject: Subject) returns (p: Pass)
    ensures Reachable(p) && p.phase.Idle? && p.failures > 0
    ensures 2 in p.dropped && 2 !in p.sent && |p.w.tasks| == 3 && p.w.tasks[2].kind == Global
    ensures C.Live(p.w.tree, p.w.tasks[2].ctx)
  {
    var start := NewPass(now, now, now);
    p := GlobalStartsNext(now, subject);
    assert C.Live(p.w.tree, 0);
    p := Go(start, p, PruneKept(Author, 0));
    p := Go(start, p, Other(Check(1, true)));
    p := Go(start, p, Other(Mark(1, true)));
    assert p.w.gens.author.store[0].state.Done?;
    p := Go(start, p, StartKept(Author, 0, subject));
  }
}
