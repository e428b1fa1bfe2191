/** The scheduler of one relay as a state machine: three generators of attempts over one tree of
    contexts, with callbacks whose check and mark are separate steps that anything may come between. */
module SchedulerModel {
  import opened Sequences
  import opened Wrappers
  import opened TimeWindows
  import opened Trackers
  import C = Contexts
  import F = Filters
  import Clock

  const CONCURRENCY: nat := 1

  /** `store` holds every tracker ever created, in order; `active` are the numbers of those still kept. */
  datatype Generator = Generator(start: int, last: TimeWindow, store: seq<Tracker>, active: seq<nat>)

  datatype Kind = Global | Author | Tag

  datatype Generators = Generators(global: Generator, author: Generator, tag: Generator) {
    function Of(k: Kind): Generator {
      match k case Global => global case Author => author case Tag => tag
    }

    function With(k: Kind, g: Generator): (r: Generators)
      ensures r.Of(k) == g && forall k' | k' != k :: r.Of(k') == Of(k')
    {
      match k case Global => this.(global := g) case Author => this.(author := g) case Tag => this.(tag := g)
    }
  }

  /** An attempt: tracker number `tracker` of generator `kind`, run under context `ctx`. */
  datatype Task = Task(kind: Kind, tracker: nat, ctx: nat, filter: F.Filter)

  /** `checked` are the callbacks that found their context live but have not marked the tracker yet;
      `eose` remembers the attempts whose EOSE found a live context. */
  datatype World = World(now: int, tree: C.Tree, gens: Generators, tasks: seq<Task>,
                         checked: set<(nat, bool)>, eose: set<nat>)

  function NewGenerator(now: int): Generator {
    var start := now - INITIAL_WINDOW_AGE;
    Generator(start, WindowAt(start, 0), [], [])
  }

  /** Each generator reads the clock when it is made. */
  function NewWorld(global: int, author: int, tag: int): World {
    World(tag, [], Generators(NewGenerator(global), NewGenerator(author), NewGenerator(tag)), [], {}, {})
  }

  /** maybeGenerateNewTracker, with the new tracker appended to the list. */
  function Extend(g: Generator, now: int): Generator {
    if g.last.End() > now - WINDOW_SIZE then g
    else g.(last := g.last.Advance(), store := g.store + [NewTracker(g.last)], active := g.active + [|g.store|])
  }

  function Remove(s: seq<nat>, x: nat): seq<nat> {
    if s == [] then [] else if s[0] == x then Remove(s[1..], x) else [s[0]] + Remove(s[1..], x)
  }

  datatype Step =
    | Tick(elapsed: nat)
    | Derive(parent: Option<nat>)
    | CancelContext(c: nat)
    | Prune(kind: Kind, id: nat)
    | Grow(kind: Kind)
    | Start(kind: Kind, id: nat, under: nat, subject: Subject)
    | Check(task: nat, isEose: bool)
    | Mark(task: nat, isEose: bool)

  /** Steps whose guard does not hold leave the state as it is. */
  function Next(w: World, s: Step): World {
    match s
    case Tick(d) => w.(now := w.now + d)
    case Derive(parent) =>
      if parent.Some? && parent.value >= |w.tree| then w else w.(tree := C.WithCancel(w.tree, parent))
    case CancelContext(c) => w.(tree := C.Cancel(w.tree, c))
    case Prune(k, id) =>
      var g := w.gens.Of(k);
      if id in g.active && id < |g.store| && g.store[id].state.Done? then
        w.(tree := CancelIfSet(w.tree, g.store[id].ctx), gens := w.gens.With(k, g.(active := Remove(g.active, id))))
      else w
    case Grow(k) =>
      var g := w.gens.Of(k);
      if |g.active| < CONCURRENCY then w.(gens := w.gens.With(k, Extend(g, w.now))) else w
    case Start(k, id, parent, subject) =>
      var g := w.gens.Of(k);
      if id in g.active && id < |g.store| && parent < |w.tree| then
        var r := StartAttempt(g.store[id], w.tree, parent, subject);
        if r.NewAttempt? then AfterStart(w, k, id, r) else w
      else w
    case Check(t, isEose) =>
      if t < |w.tasks| && C.Live(w.tree, w.tasks[t].ctx) then
        w.(checked := w.checked + {(t, isEose)}, eose := if isEose then w.eose + {t} else w.eose)
      else w
    case Mark(t, isEose) =>
      if (t, isEose) in w.checked && t < |w.tasks| then
        var g := w.gens.Of(w.tasks[t].kind);
        var i := w.tasks[t].tracker;
        var cleared := w.(checked := w.checked - {(t, isEose)});
        if i < |g.store| then
          cleared.(gens := w.gens.With(w.tasks[t].kind, g.(store := g.store[i := Marked(g.store[i], isEose)])))
        else cleared
      else w
  }

  function AfterStart(w: World, k: Kind, id: nat, r: StartResult): World
    requires id < |w.gens.Of(k).store| && r.NewAttempt?
  {
    var g := w.gens.Of(k);
    w.(tree := r.tree, gens := w.gens.With(k, g.(store := g.store[id := r.tracker])),
       tasks := w.tasks + [Task(k, id, r.ctx, r.filter)])
  }

  function Marked(t: Tracker, isEose: bool): Tracker {
    if isEose then MarkDone(t) else MarkFailed(t)
  }

  function Run(w: World, steps: seq<Step>): World {
    if steps == [] then w else Next(Run(w, steps[..|steps| - 1]), steps[|steps| - 1])
  }

  lemma {:induction false} RunAppend(w: World, s: seq<Step>, t: seq<Step>)
    ensures Run(w, s + t) == Run(Run(w, s), t)
  {
    if t == [] {
      assert s + t == s;
    } else {
      assert (s + t)[..|s + t| - 1] == s + t[..|t| - 1];
      RunAppend(w, s, t[..|t| - 1]);
    }
  }

  // ---------------------------------------------------------------- the invariant

  lemma {:induction false} RemoveIs(s: seq<nat>, x: nat)
    requires NoDuplicates(s)
    ensures NoDuplicates(Remove(s, x)) && |Remove(s, x)| <= |s|
    ensures forall y :: y in Remove(s, x) <==> y in s && y != x
  {
    if s != [] {
      RemoveIs(s[1..], x);
      assert s[0] !in s[1..];
    }
  }

  ghost predicate Ids(ids: seq<nat>, n: nat) {
    forall j :: 0 <= j < |ids| ==> ids[j] < n
  }

  /** The trackers ever created have the windows 0 .. n-1 of the tiling, one each, and the next window
      is number n; what is no longer kept is done. */
  ghost predicate Tiled(g: Generator) {
    && g.last == WindowAt(g.start, |g.store|)
    && (forall i :: 0 <= i < |g.store| ==> g.store[i].window == WindowAt(g.start, i))
    && NoDuplicates(g.active) && |g.active| <= CONCURRENCY
    && Ids(g.active, |g.store|)
    && (forall i: nat :: i < |g.store| && i !in g.active ==> g.store[i].state.Done?)
    && (forall i :: 0 <= i < |g.store| && g.store[i].ctx.None? ==> g.store[i].state.New?)
  }

  /** Only windows that ended a whole window ago are issued. */
  ghost predicate Lagging(g: Generator, now: int) {
    forall i :: 0 <= i < |g.store| ==> g.store[i].window.End() <= now - WINDOW_SIZE
  }

  ghost predicate IsFilterOf(f: F.Filter, w: TimeWindow) {
    f.since == Some(Clock.Unix(w.start)) && f.until == Some(Clock.Unix(w.End()))
  }

  /** The attempts' contexts are all different, and one that is live is the current attempt of a kept tracker. */
  ghost predicate TaskOk(w: World, t: nat)
    requires t < |w.tasks|
  {
    var task := w.tasks[t];
    var g := w.gens.Of(task.kind);
    && task.tracker < |g.store| && task.ctx < |w.tree| && g.store[task.tracker].ctx.Some?
    && IsFilterOf(task.filter, WindowAt(g.start, task.tracker))
    && (C.Live(w.tree, task.ctx) ==> task.tracker in g.active && g.store[task.tracker].ctx == Some(task.ctx))
  }

  ghost predicate TasksOk(w: World) {
    && (forall t :: 0 <= t < |w.tasks| ==> TaskOk(w, t))
    && (forall t, u :: 0 <= t < u < |w.tasks| ==> w.tasks[t].ctx < w.tasks[u].ctx)
  }

  ghost predicate IsAttempt(w: World, t: nat, k: Kind, i: nat) {
    t < |w.tasks| && w.tasks[t].kind == k && w.tasks[t].tracker == i
  }

  ghost predicate Owned(w: World, k: Kind, i: nat)
    requires i < |w.gens.Of(k).store|
  {
    exists t: nat :: IsAttempt(w, t, k, i) && w.gens.Of(k).store[i].ctx == Some(w.tasks[t].ctx)
  }

  ghost predicate EoseSeen(w: World, k: Kind, i: nat) {
    exists t: nat :: IsAttempt(w, t, k, i) && t in w.eose
  }

  /** The context of every tracker belongs to one of its attempts. */
  ghost predicate ContextsOwned(w: World) {
    forall k: Kind, i: nat | i < |w.gens.Of(k).store| && w.gens.Of(k).store[i].ctx.Some? :: Owned(w, k, i)
  }

  /** Nothing is done, or about to be marked as done, without an EOSE that found a live context. */
  ghost predicate DoneAfterEose(w: World) {
    && (forall t :: (t, true) in w.checked ==> t in w.eose)
    && (forall t :: t in w.eose ==> t < |w.tasks|)
    && (forall k: Kind, i: nat | i < |w.gens.Of(k).store| && w.gens.Of(k).store[i].state.Done? :: EoseSeen(w, k, i))
  }

  ghost predicate Inv(w: World) {
    && (forall k: Kind :: Tiled(w.gens.Of(k)) && Lagging(w.gens.Of(k), w.now))
    && TasksOk(w) && ContextsOwned(w) && DoneAfterEose(w)
  }

  lemma InvInitially(global: int, author: int, tag: int)
    ensures Inv(NewWorld(global, author, tag))
  {
  }

  /** Contexts only die: a step that cancels or derives contexts keeps TasksOk. */
  lemma FewerLive(w: World, w': World)
    requires TasksOk(w) && w' == w.(tree := w'.tree) && |w.tree| <= |w'.tree|
    requires forall c: nat | c < |w.tree| :: C.Live(w'.tree, c) ==> C.Live(w.tree, c)
    ensures TasksOk(w')
  {
    forall t | 0 <= t < |w'.tasks| ensures TaskOk(w', t) {
      assert TaskOk(w, t);
    }
  }

  lemma InvDerive(w: World, parent: Option<nat>)
    requires Inv(w)
    ensures Inv(Next(w, Derive(parent)))
  {
    var w' := Next(w, Derive(parent));
    if w' != w {
      forall c: nat | c < |w.tree| ensures C.Live(w'.tree, c) ==> C.Live(w.tree, c) {
        C.LiveAfterWithCancel(w.tree, parent, c);
      }
      FewerLive(w, w');
      Transfer(w, w');
    }
  }

  lemma InvCancel(w: World, c: nat)
    requires Inv(w)
    ensures Inv(Next(w, CancelContext(c)))
  {
    var w' := Next(w, CancelContext(c));
    forall d: nat | d < |w.tree| ensures C.Live(w'.tree, d) ==> C.Live(w.tree, d) {
      C.LiveAfterCancel(w.tree, c, d);
    }
    FewerLive(w, w');
    Transfer(w, w');
  }

  /** Attempts and EOSEs are only ever added, so what they justified before stays justified. */
  lemma Transfer(w: World, w': World)
    requires ContextsOwned(w) && DoneAfterEose(w)
    requires |w.tasks| <= |w'.tasks| && w'.tasks[..|w.tasks|] == w.tasks && w.eose <= w'.eose
    requires (forall t :: (t, true) in w'.checked ==> t in w'.eose) && (forall t :: t in w'.eose ==> t < |w'.tasks|)
    requires forall k: Kind, i: nat | i < |w'.gens.Of(k).store| ::
               var t := w'.gens.Of(k).store[i];
               && (t.ctx.Some? ==> Owned(w', k, i) || (i < |w.gens.Of(k).store| && w.gens.Of(k).store[i].ctx == t.ctx))
               && (t.state.Done? ==>
                   EoseSeen(w', k, i) || (i < |w.gens.Of(k).store| && w.gens.Of(k).store[i].state.Done?))
    ensures ContextsOwned(w') && DoneAfterEose(w')
  {
    forall k: Kind, i: nat | i < |w.gens.Of(k).store| && w.gens.Of(k).store[i].ctx.Some?
                             && i < |w'.gens.Of(k).store| && w'.gens.Of(k).store[i].ctx == w.gens.Of(k).store[i].ctx
      ensures Owned(w', k, i)
    {
      assert Owned(w, k, i);
      var t: nat :| IsAttempt(w, t, k, i) && w.gens.Of(k).store[i].ctx == Some(w.tasks[t].ctx);
      assert IsAttempt(w', t, k, i) && w'.tasks[t] == w.tasks[t];
    }
    forall k: Kind, i: nat | i < |w.gens.Of(k).store| && w.gens.Of(k).store[i].state.Done?
      ensures EoseSeen(w', k, i)
    {
      assert EoseSeen(w, k, i);
      var t: nat :| IsAttempt(w, t, k, i) && t in w.eose;
      assert IsAttempt(w', t, k, i) && w'.tasks[t] == w.tasks[t];
    }
  }

  /** A tracker is dropped only when done, and its context is cancelled first. */
  lemma InvPrune(w: World, k: Kind, id: nat)
    requires Inv(w)
    ensures Inv(Next(w, Prune(k, id)))
  {
    var w' := Next(w, Prune(k, id));
    if w' != w {
      var g := w.gens.Of(k);
      var ctx := g.store[id].ctx.value;
      RemoveIs(g.active, id);
      assert Tiled(w'.gens.Of(k));
      forall d: nat ensures C.Live(w'.tree, d) ==> C.Live(w.tree, d) && d != ctx {
        C.LiveAfterCancel(w.tree, ctx, d);
      }
      forall t | 0 <= t < |w'.tasks| ensures TaskOk(w', t) {
        assert TaskOk(w, t);
      }
      Transfer(w, w');
    }
  }

  lemma ExtendTiled(g: Generator, now: int)
    requires Tiled(g) && |g.active| < CONCURRENCY
    ensures Tiled(Extend(g, now)) && (Lagging(g, now) ==> Lagging(Extend(g, now), now))
  {
    var g' := Extend(g, now);
    if g' != g {
      assert g'.last == WindowAt(g.start, |g'.store|);
      forall i: nat | i < |g'.store| && i !in g'.active ensures g'.store[i].state.Done? {
        assert i !in g.active && |g.store| in g'.active;
      }
    }
  }

  lemma InvGrow(w: World, k: Kind)
    requires Inv(w)
    ensures Inv(Next(w, Grow(k)))
  {
    var w' := Next(w, Grow(k));
    if |w.gens.Of(k).active| < CONCURRENCY {
      ExtendTiled(w.gens.Of(k), w.now);
      forall t | 0 <= t < |w'.tasks| ensures TaskOk(w', t) {
        assert TaskOk(w, t);
      }
      Transfer(w, w');
    }
  }

  /** The superseded attempt is cancelled before the new one gets its context. */
  lemma StartLive(t: Tracker, tree: C.Tree, under: nat, subject: Subject, c: nat)
    requires under < |tree| && c < |tree| && StartAttempt(t, tree, under, subject).NewAttempt?
    ensures var r := StartAttempt(t, tree, under, subject);
            |r.tree| == |tree| + 1 && r.ctx == |tree| && (C.Live(r.tree, c) ==> C.Live(tree, c) && Some(c) != t.ctx)
  {
    C.LiveAfterWithCancel(CancelIfSet(tree, t.ctx), Some(under), c);
    if t.ctx.Some? {
      C.LiveAfterCancel(tree, t.ctx.value, c);
    }
  }

  lemma StartTaskOk(w: World, k: Kind, id: nat, under: nat, subject: Subject, t: nat)
    requires TasksOk(w) && Tiled(w.gens.Of(k)) && id in w.gens.Of(k).active && under < |w.tree| && t <= |w.tasks|
    requires StartAttempt(w.gens.Of(k).store[id], w.tree, under, subject).NewAttempt?
    ensures var w' := AfterStart(w, k, id, StartAttempt(w.gens.Of(k).store[id], w.tree, under, subject));
            TaskOk(w', t) && (t < |w.tasks| ==> w'.tasks[t].ctx < |w.tree|)
  {
    var g := w.gens.Of(k);
    var r := StartAttempt(g.store[id], w.tree, under, subject);
    var w' := AfterStart(w, k, id, r);
    StartLive(g.store[id], w.tree, under, subject, 0);
    if t < |w.tasks| {
      assert TaskOk(w, t) && w'.tasks[t] == w.tasks[t];
      StartLive(g.store[id], w.tree, under, subject, w.tasks[t].ctx);
    } else {
      assert w'.tasks[t] == Task(k, id, r.ctx, r.filter);
    }
  }

  lemma StartKeepsTasks(w: World, k: Kind, id: nat, under: nat, subject: Subject)
    requires TasksOk(w) && Tiled(w.gens.Of(k)) && id in w.gens.Of(k).active && under < |w.tree|
    requires StartAttempt(w.gens.Of(k).store[id], w.tree, under, subject).NewAttempt?
    ensures TasksOk(AfterStart(w, k, id, StartAttempt(w.gens.Of(k).store[id], w.tree, under, subject)))
  {
    var r := StartAttempt(w.gens.Of(k).store[id], w.tree, under, subject);
    var w' := AfterStart(w, k, id, r);
    StartLive(w.gens.Of(k).store[id], w.tree, under, subject, 0);
    forall t | 0 <= t < |w'.tasks| ensures TaskOk(w', t) && (t < |w.tasks| ==> w'.tasks[t].ctx < |w.tree|) {
      StartTaskOk(w, k, id, under, subject, t);
    }
    assert w'.tasks[|w.tasks|].ctx == |w.tree|;
    assert forall t | 0 <= t < |w.tasks| :: w'.tasks[t] == w.tasks[t];
  }

  lemma StartKeepsOwners(w: World, k: Kind, id: nat, r: StartResult)
    requires ContextsOwned(w) && DoneAfterEose(w) && id < |w.gens.Of(k).store| && r.NewAttempt?
    requires r.tracker.ctx == Some(r.ctx) && r.tracker.state.Started?
    ensures ContextsOwned(AfterStart(w, k, id, r)) && DoneAfterEose(AfterStart(w, k, id, r))
  {
    var w' := AfterStart(w, k, id, r);
    assert IsAttempt(w', |w.tasks|, k, id) && Owned(w', k, id);
    Transfer(w, w');
  }

  lemma InvStart(w: World, k: Kind, id: nat, under: nat, subject: Subject)
    requires Inv(w)
    ensures Inv(Next(w, Start(k, id, under, subject)))
  {
    var g := w.gens.Of(k);
    if id in g.active && under < |w.tree| && StartAttempt(g.store[id], w.tree, under, subject).NewAttempt? {
      var r := StartAttempt(g.store[id], w.tree, under, subject);
      StartKeepsTasks(w, k, id, under, subject);
      StartKeepsOwners(w, k, id, r);
    }
  }

  lemma InvCheck(w: World, task: nat, isEose: bool)
    requires Inv(w)
    ensures Inv(Next(w, Check(task, isEose)))
  {
    var w' := Next(w, Check(task, isEose));
    forall t | 0 <= t < |w'.tasks| ensures TaskOk(w', t) {
      assert TaskOk(w, t);
    }
    Transfer(w, w');
  }

  lemma MarkKeepsTasks(w: World, task: nat, isEose: bool)
    requires TasksOk(w)
    ensures TasksOk(Next(w, Mark(task, isEose)))
  {
    var w' := Next(w, Mark(task, isEose));
    forall t | 0 <= t < |w'.tasks| ensures TaskOk(w', t) {
      assert TaskOk(w, t);
    }
  }

  lemma InvMark(w: World, task: nat, isEose: bool)
    requires Inv(w)
    ensures Inv(Next(w, Mark(task, isEose)))
  {
    var w' := Next(w, Mark(task, isEose));
    MarkKeepsTasks(w, task, isEose);
    if w' != w {
      var kind, id := w.tasks[task].kind, w.tasks[task].tracker;
      assert TaskOk(w, task);
      assert IsAttempt(w', task, kind, id);
      Transfer(w, w');
    }
  }

  lemma InvNext(w: World, s: Step)
    requires Inv(w)
    ensures Inv(Next(w, s))
  {
    match s
    case Tick(d) =>
      FewerLive(w, w);
      Transfer(w, Next(w, s));
      forall t | 0 <= t < |w.tasks| ensures TaskOk(Next(w, s), t) {
        assert TaskOk(w, t);
      }
    case Derive(parent) => InvDerive(w, parent);
    case CancelContext(c) => InvCancel(w, c);
    case Prune(k, id) => InvPrune(w, k, id);
    case Grow(k) => InvGrow(w, k);
    case Start(k, id, under, subject) => InvStart(w, k, id, under, subject);
    case Check(t, isEose) => InvCheck(w, t, isEose);
    case Mark(t, isEose) => InvMark(w, t, isEose);
  }

  lemma {:induction false} InvRun(w: World, steps: seq<Step>)
    requires Inv(w)
    ensures Inv(Run(w, steps))
  {
    if steps != [] {
      InvRun(w, steps[..|steps| - 1]);
      InvNext(Run(w, steps[..|steps| - 1]), steps[|steps| - 1]);
    }
  }
}
