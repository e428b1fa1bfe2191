/** What generates the downloads of one relay: three generators, and the subscriptions their attempts are pushed to.
    The methods follow the Go objects while the clock, cancellations and callbacks come in between their loops, and
    each says which moves of the state machine in `Passes` it makes. */
module RelayTasks {
  import opened Wrappers
  import opened Sequences
  import opened Trackers
  import opened SchedulerModel
  import opened Generation
  import opened Generators
  import opened Passes
  import opened RelayTaskModel
  import opened SubscriptionLists
  import opened TaskSubjects
  import M = SchedulerModel
  import C = Contexts
  import F = Filters

  // ---------------------------------------------------------------- generators side by side

  /** Two generators share no tracker. */
  ghost predicate Apart(a: TimeWindowTaskGenerator, b: TimeWindowTaskGenerator)
    reads a, b
  {
    a != b && a.Repr !! b.Repr
  }

  twostate predicate Untouched(o: TimeWindowTaskGenerator)
    reads o, o.Repr
  {
    unchanged(o) && old(o.Valid()) && o.Valid() && o.Value() == old(o.Value())
  }

  /** The parts of Generate for one generator leave those it is apart from as they were. */
  method DropDoneAside(g: TimeWindowTaskGenerator, ghost a: TimeWindowTaskGenerator, ghost b: TimeWindowTaskGenerator,
                       contexts: C.ContextTree)
    requires g.Valid() && a.Valid() && b.Valid() && Apart(g, a) && Apart(g, b)
    modifies g`taskTrackers, g`active, contexts
    ensures g.Valid() && Untouched(a) && Untouched(b)
    ensures var p := PruneAll(old(g.Value()).store, old(g.active), old(contexts.nodes));
            g.Value() == old(g.Value()).(active := p.active) && contexts.nodes == p.tree
  {
    ghost var before := g.Value();
    g.DropDone(contexts);
    assert g.Value() == before.(active := g.active);
  }

  method AddTrackersAside(g: TimeWindowTaskGenerator, ghost a: TimeWindowTaskGenerator,
                          ghost b: TimeWindowTaskGenerator, now: int)
    requires g.Valid() && a.Valid() && b.Valid() && Apart(g, a) && Apart(g, b)
    modifies g`taskTrackers, g`active, g`lastWindow, g`created, g`Repr
    ensures g.Valid() && fresh(g.Repr - old(g.Repr)) && old(g.Repr) <= g.Repr && old(g.created) <= g.created
    ensures Untouched(a) && Untouched(b) && Apart(g, a) && Apart(g, b)
    ensures var missing := if |old(g.active)| < CONCURRENCY then CONCURRENCY - |old(g.active)| else 0;
            g.Value() == GrowBy(old(g.Value()), now, missing)
  {
    g.AddTrackers(now);
  }

  method StartTrackersAside(g: TimeWindowTaskGenerator, ghost a: TimeWindowTaskGenerator,
                            ghost b: TimeWindowTaskGenerator,
                            contexts: C.ContextTree, ctx: nat, subject: Subject)
    returns (r: Result<seq<TimeWindowTask>>)
    requires g.Valid() && a.Valid() && b.Valid() && Apart(g, a) && Apart(g, b) && ctx < |contexts.nodes|
    modifies g.Repr, contexts
    ensures g.Valid() && Untouched(a) && Untouched(b)
    ensures var s := StartAll(old(g.Value()).store, g.active, old(contexts.nodes), ctx, subject);
            && g.Value() == old(g.Value()).(store := s.store) && contexts.nodes == s.tree
            && (r.Ok? <==> !s.failed) && (r.Ok? ==> AreAttempts(r.value, s.attempts, g.created))
  {
    ghost var before := g.Value();
    r := g.StartTrackers(contexts, ctx, subject);
    assert g.Value() == before.(store := Values(g.created, g.Repr));
  }

  /** A callback's second half. */
  method MarkAside(tracker: TimeWindowTaskTracker, isEose: bool, ghost g: TimeWindowTaskGenerator,
                   ghost a: TimeWindowTaskGenerator,
                   ghost b: TimeWindowTaskGenerator, ghost i: nat)
    requires g.Valid() && a.Valid() && b.Valid() && Apart(g, a) && Apart(g, b)
    requires i < |g.created| && g.created[i] == tracker
    modifies tracker
    ensures g.Valid() && Untouched(a) && Untouched(b)
    ensures g.Value() == old(g.Value()).(store := old(g.Value()).store[i := Marked(old(g.Value()).store[i], isEose)])
  {
    ghost var before := g.Value();
    assert tracker in g.Repr;
    if isEose {
      tracker.MarkAsDone();
    } else {
      tracker.MarkAsFailed();
    }
    forall j | 0 <= j < |g.created| && j != i ensures g.created[j].Value() == before.store[j] {
      assert g.created[j] != tracker;
    }
    assert g.Value().store == before.store[i := Marked(before.store[i], isEose)];
  }

  /** NewFilterTag refuses an empty value. */
  method ProfileTags(keys: seq<string>) returns (r: Result<seq<F.FilterTag>>)
    ensures r == if "" in keys then Err else Ok(TagsOf(keys))
  {
    var tags: seq<F.FilterTag> := [];
    for i := 0 to |keys|
      invariant "" !in keys[..i]
      invariant |tags| == i && forall j :: 0 <= j < i ==> tags[j] == F.FilterTag("p", keys[j])
    {
      if keys[i] == "" {
        return Err;
      }
      tags := tags + [F.FilterTag("p", keys[i])];
    }
    assert tags == TagsOf(keys);
    return Ok(tags);
  }

  // ---------------------------------------------------------------- the object

  class RelayTaskGenerator {
    var taskSubscriptions: seq<TaskSubscription>
    const globalTask: TimeWindowTaskGenerator
    const authorTask: TimeWindowTaskGenerator
    const tagTask: TimeWindowTaskGenerator

    /** What goes on outside: the clock, the attempts that were sent with the goroutines working on them, and
        the callbacks (goroutine and whether it is an EOSE) that have checked their context but not marked. */
    var now: int
    var sent: seq<Sent>
    var inProgress: set<(nat, bool)>

    /** The trackers of all three generators, and the numbers of the attempts in `sent`. */
    ghost var Repr: set<TimeWindowTaskTracker>
    ghost var numbers: seq<nat>

    ghost predicate Valid()
      reads globalTask, authorTask, tagTask, globalTask.Repr, authorTask.Repr, tagTask.Repr
    {
      && globalTask.Valid() && authorTask.Valid() && tagTask.Valid()
      && Apart(globalTask, authorTask) && Apart(globalTask, tagTask) && Apart(authorTask, tagTask)
    }

    function Of(k: Kind): TimeWindowTaskGenerator {
      match k case Global => globalTask case Author => authorTask case Tag => tagTask
    }

    ghost function Made(): AllCreated
      reads globalTask, authorTask, tagTask
    {
      AllCreated(globalTask.created, authorTask.created, tagTask.created)
    }

    ghost predicate SentAre(p: Pass)
      reads this`sent, this`numbers, this`inProgress, globalTask, authorTask, tagTask
    {
      && AreTasks(SentTasks(sent), p.w.tasks, numbers, Made()) && NoDuplicates(numbers) && p.sent == Numbers(numbers)
      && CallbacksOk(inProgress, numbers, p.w.checked)
    }

    /** The generators, contexts and clock are in the state that the state machine says. */
    ghost predicate Agrees(w: World, contexts: C.ContextTree)
      reads this`now, contexts, globalTask, authorTask, tagTask, globalTask.Repr, authorTask.Repr, tagTask.Repr
    {
      && Valid() && w.now == now && w.tree == contexts.nodes
      && w.gens == Generators(globalTask.Value(), authorTask.Value(), tagTask.Value())
    }

    ghost predicate Matches(p: Pass, contexts: C.ContextTree)
      reads this`Repr, this`now, this`sent, this`numbers, this`inProgress
      reads contexts, globalTask, authorTask, tagTask, globalTask.Repr, authorTask.Repr, tagTask.Repr
    {
      Agrees(p.w, contexts) && SentAre(p) && Repr == globalTask.Repr + authorTask.Repr + tagTask.Repr
    }

    /** The clock is read once for each generator. */
    constructor (contexts: C.ContextTree, global: int, author: int, tag: int)
      requires contexts.nodes == []
      ensures Matches(NewPass(global, author, tag), contexts) && taskSubscriptions == []
    {
      globalTask := new TimeWindowTaskGenerator(global);
      authorTask := new TimeWindowTaskGenerator(author);
      tagTask := new TimeWindowTaskGenerator(tag);
      taskSubscriptions, sent, inProgress := [], [], {};
      now := tag;
      Repr, numbers := {}, [];
    }

    method AddSubscription(ctx: nat, ch: nat)
      modifies this`taskSubscriptions
      ensures taskSubscriptions == old(taskSubscriptions) + [TaskSubscription(ctx, ch)]
    {
      taskSubscriptions := taskSubscriptions + [TaskSubscription(ctx, ch)];
    }

    // -------------------------------------------------------------- other goroutines

    /** The first half of OnReceivedEOSE or OnError. */
    method CallbackChecks(i: nat, isEose: bool, contexts: C.ContextTree, ghost p: Pass) returns (ghost p': Pass)
      requires Matches(p, contexts) && i < |sent|
      modifies this`inProgress
      ensures Matches(p', contexts) && OnlyOthers(p, p') && p' == Passes.Next(p, Other(Check(numbers[i], isEose)))
      ensures inProgress == old(inProgress) + if C.Live(contexts.nodes, sent[i].task.ctx) then {(i, isEose)} else {}
    {
      ghost var s := Check(numbers[i], isEose);
      SameAfter(p, Other(s));
      if C.Live(contexts.nodes, sent[i].task.ctx) {
        inProgress := inProgress + {(i, isEose)};
      }
      p' := Passes.Next(p, Other(s));
    }

    /** The second half. */
    method CallbackMarks(i: nat, isEose: bool, contexts: C.ContextTree, ghost p: Pass) returns (ghost p': Pass)
      requires Matches(p, contexts) && (i, isEose) in inProgress
      modifies this`inProgress, Repr
      ensures Matches(p', contexts) && OnlyOthers(p, p') && p' == Passes.Next(p, Other(Mark(numbers[i], isEose)))
      ensures inProgress == old(inProgress) - {(i, isEose)}
    {
      ghost var s := Mark(numbers[i], isEose);
      ghost var record := p.w.tasks[numbers[i]];
      assert IsTask(sent[i].task, record, Made());
      SameAfter(p, Other(s));
      MarkIs(p, numbers[i], isEose);
      CallbackEnds(inProgress, numbers, p.w.checked, i, isEose);
      p' := Passes.Next(p, Other(s));
      inProgress := inProgress - {(i, isEose)};
      MarkTracker(sent[i].task.tracker, isEose, record.kind, record.tracker);
    }

    method MarkTracker(tracker: TimeWindowTaskTracker, isEose: bool, ghost k: Kind, ghost id: nat)
      requires Valid() && id < |Of(k).created| && Of(k).created[id] == tracker
      modifies tracker
      ensures Valid()
      ensures var gens := old(Generators(globalTask.Value(), authorTask.Value(), tagTask.Value()));
              var g := gens.Of(k);
              Generators(globalTask.Value(), authorTask.Value(), tagTask.Value())
              == gens.With(k, g.(store := g.store[id := Marked(g.store[id], isEose)]))
    {
      ghost var a := if k.Global? then authorTask else globalTask;
      ghost var b := if k.Tag? then authorTask else tagTask;
      MarkAside(tracker, isEose, Of(k), a, b, id);
    }

    /** The clock, a context that is cancelled or derived, or a callback. */
    method SomethingHappens(contexts: C.ContextTree, ghost p: Pass) returns (ghost p': Pass)
      requires Matches(p, contexts)
      modifies this`now, this`inProgress, Repr, contexts
      ensures Matches(p', contexts) && OnlyOthers(p, p')
    {
      var what: nat, n: nat, yes: bool := *, *, *;
      if what == 0 {
        SameAfter(p, Other(Tick(n)));
        now := now + n;
        p' := Passes.Next(p, Other(Tick(n)));
      } else if what == 1 {
        SameAfter(p, Other(CancelContext(n)));
        contexts.CancelContext(n);
        p' := Passes.Next(p, Other(CancelContext(n)));
      } else if what == 2 {
        var parent := if yes then Some(n) else None;
        SameAfter(p, Other(Step.Derive(parent)));
        if parent.None? || n < |contexts.nodes| {
          var c := contexts.Derive(parent);
        }
        p' := Passes.Next(p, Other(Step.Derive(parent)));
      } else if what == 3 && n < |sent| {
        p' := CallbackChecks(n, yes, contexts, p);
      } else if what == 4 && (n, yes) in inProgress {
        p' := CallbackMarks(n, yes, contexts, p);
      } else {
        LeadsSame(p);
        p' := p;
      }
    }

    /** Any number of things that other goroutines do. */
    method Others(contexts: C.ContextTree, ghost p: Pass) returns (ghost p': Pass)
      requires Matches(p, contexts)
      modifies this`now, this`inProgress, Repr, contexts
      ensures Matches(p', contexts) && OnlyOthers(p, p')
    {
      var rounds: int := *;
      p' := p;
      LeadsSame(p);
      while rounds > 0
        invariant Matches(p', contexts) && OnlyOthers(p, p')
      {
        rounds := rounds - 1;
        ghost var q := p';
        p' := SomethingHappens(contexts, q);
        SameJoin(p, q, p');
      }
    }

    // -------------------------------------------------------------- collecting

    ghost function Gens(): M.Generators
      requires Valid()
      reads globalTask, authorTask, tagTask, globalTask.Repr, authorTask.Repr, tagTask.Repr
    {
      Generators(globalTask.Value(), authorTask.Value(), tagTask.Value())
    }

    method DropDoneOf(k: Kind, contexts: C.ContextTree)
      requires Valid()
      modifies Of(k)`taskTrackers, Of(k)`active, contexts
      ensures Valid()
      ensures var g := old(Gens()).Of(k);
              var r := PruneAll(g.store, g.active, old(contexts.nodes));
              Gens() == old(Gens()).With(k, g.(active := r.active)) && contexts.nodes == r.tree
    {
      match k
      case Global => DropDoneAside(globalTask, authorTask, tagTask, contexts);
      case Author => DropDoneAside(authorTask, globalTask, tagTask, contexts);
      case Tag => DropDoneAside(tagTask, globalTask, authorTask, contexts);
    }

    method AddTrackersOf(k: Kind)
      requires Valid()
      modifies Of(k)
      ensures Valid() && fresh(Of(k).Repr - old(Of(k).Repr)) && old(Of(k).created) <= Of(k).created
      ensures forall other: Kind :: other != k ==> Of(other).Repr == old(Of(other).Repr)
      ensures var g := old(Gens()).Of(k);
              var missing := if |g.active| < CONCURRENCY then CONCURRENCY - |g.active| else 0;
              Gens() == old(Gens()).With(k, GrowBy(g, now, missing))
    {
      match k
      case Global => AddTrackersAside(globalTask, authorTask, tagTask, now);
      case Author => AddTrackersAside(authorTask, globalTask, tagTask, now);
      case Tag => AddTrackersAside(tagTask, globalTask, authorTask, now);
    }

    method AddTrackersTo(k: Kind)
      requires Valid() && Repr == globalTask.Repr + authorTask.Repr + tagTask.Repr
      modifies this`Repr, Of(k)
      ensures Valid() && Repr == globalTask.Repr + authorTask.Repr + tagTask.Repr && fresh(Repr - old(Repr))
      ensures old(Made()).GrownTo(Made())
      ensures var g := old(Gens()).Of(k);
              var missing := if |g.active| < CONCURRENCY then CONCURRENCY - |g.active| else 0;
              Gens() == old(Gens()).With(k, GrowBy(g, now, missing))
    {
      AddTrackersOf(k);
      ghost var grown := Of(k).Repr - old(Of(k).Repr);
      Repr := globalTask.Repr + authorTask.Repr + tagTask.Repr;
      assert Repr - old(Repr) <= grown;
    }

    /** The first loop of Generate, after any number of other things. */
    method PruneAmongOthers(k: Kind, contexts: C.ContextTree, ghost p: Pass) returns (ghost p': Pass)
      requires Matches(p, contexts) && Reachable(p) && p.phase.Collecting?
      modifies this`now, this`inProgress, Of(k)`taskTrackers, Of(k)`active, Repr, contexts
      ensures Matches(p', contexts) && SameAttempts(p, p') && KeepsUndone(p'.w, k)
    {
      ghost var q := Others(contexts, p);
      ReachableOn(p, q);
      p' := PruneMove(q, k);
      DropDoneOf(k, contexts);
      SameJoin(p, q, p');
    }

    /** The second loop, likewise. */
    method GrowAmongOthers(k: Kind, contexts: C.ContextTree, ghost p: Pass) returns (ghost p': Pass)
      requires Matches(p, contexts) && Reachable(p) && p.phase.Collecting?
      modifies this`now, this`inProgress, this`Repr, Of(k), Repr, contexts
      ensures Matches(p', contexts) && SameAttempts(p, p')
      ensures fresh(Repr - old(Repr)) && old(Made()).GrownTo(Made()) && HasGrown(p'.w, k)
    {
      ghost var q := Others(contexts, p);
      ReachableOn(p, q);
      p' := GrowMove(q, k);
      AddTrackersTo(k);
      StillTasks(SentTasks(sent), q.w.tasks, numbers, old(Made()), q.w.tasks, Made());
      SameJoin(p, q, p');
    }

    method PrepareKind(k: Kind, contexts: C.ContextTree, ghost p: Pass) returns (ghost p': Pass)
      requires Matches(p, contexts) && Reachable(p) && p.phase.Collecting?
      modifies this`now, this`inProgress, this`Repr, Of(k), Repr, contexts
      ensures Matches(p', contexts) && SameAttempts(p, p')
      ensures fresh(Repr - old(Repr)) && old(Made()).GrownTo(Made()) && HasGrown(p'.w, k) && WasUndone(p, p', k)
    {
      ghost var q := PruneAmongOthers(k, contexts, p);
      ReachableOn(p, q);
      p' := GrowAmongOthers(k, contexts, q);
      SameJoin(p, q, p');
    }

    method StartTrackersOf(k: Kind, contexts: C.ContextTree, ctx: nat, subject: Subject)
      returns (r: Result<seq<TimeWindowTask>>)
      requires Valid() && ctx < |contexts.nodes|
      modifies Of(k).Repr, contexts
      ensures Valid()
      ensures var g := old(Gens()).Of(k);
              var s := StartAll(g.store, g.active, old(contexts.nodes), ctx, subject);
              && Gens() == old(Gens()).With(k, g.(store := s.store)) && contexts.nodes == s.tree
              && (r.Ok? <==> !s.failed) && (r.Ok? ==> AreAttempts(r.value, s.attempts, Made().Of(k)))
    {
      match k
      case Global => r := StartTrackersAside(globalTask, authorTask, tagTask, contexts, ctx, subject);
      case Author => r := StartTrackersAside(authorTask, globalTask, tagTask, contexts, ctx, subject);
      case Tag => r := StartTrackersAside(tagTask, globalTask, authorTask, contexts, ctx, subject);
    }

    /** The last loop: the kept tracker is started if it is dead, which fails iff it was marked as done since the
        first. */
    method StartKind(k: Kind, contexts: C.ContextTree, ctx: nat, subject: Subject, result: seq<TimeWindowTask>,
                     ghost p: Pass)
      returns (r: Result<seq<TimeWindowTask>>, ghost p': Pass)
      requires Matches(p, contexts) && Reachable(p) && Collects(p, ctx)
      requires AreTasks(result, p.w.tasks, Pending(p), Made())
      modifies Repr, contexts
      ensures Matches(p', contexts) && Leads(p, p') && IsStart(p, k, subject, p')
      ensures r.Err? <==> StartFails(p, StartKept(k, FirstKept(p, k), subject))
      ensures r.Ok? ==> SameCall(p, p') && AreTasks(r.value, p'.w.tasks, p'.phase.result, Made())
      ensures r.Ok? && p.w.gens.Of(k).active != [] ==> Busy(p'.w, k, ctx)
      ensures r.Err? ==> FailedCall(p, p')
      ensures NewAsk(p, p', k, subject)
    {
      p' := StartMove(p, k, subject);
      if p'.phase.Collecting? && p.w.gens.Of(k).active != [] {
        StartedIsBusy(p, k, subject, p');
      }
      ghost var g := p.w.gens.Of(k);
      ghost var started := StartAll(g.store, g.active, p.w.tree, ctx, subject);
      r := StartTrackersIn(k, contexts, ctx, subject, started, p, p');
      if r.Ok? {
        NewAreTasks(p.w.tasks, p.phase.result, k, started.attempts, result, r.value, Made());
        r := Ok(result + r.value);
      }
    }

    /** StartTrackers, seen as a move from p to next. */
    method StartTrackersIn(k: Kind, contexts: C.ContextTree, ctx: nat, subject: Subject, ghost started: StartedAll,
                           ghost p: Pass, ghost next: Pass)
      returns (r: Result<seq<TimeWindowTask>>)
      requires Matches(p, contexts) && ctx < |p.w.tree|
      requires var g := p.w.gens.Of(k);
               ActiveOk(g) && started == StartAll(g.store, g.active, p.w.tree, ctx, subject)
      requires next.w == AfterStarting(p.w, k, started) && next.sent == p.sent
      modifies Repr, contexts
      ensures Matches(next, contexts) && Made() == old(Made())
      ensures (r.Ok? <==> !started.failed) && (r.Ok? ==> AreAttempts(r.value, started.attempts, Made().Of(k)))
    {
      r := StartTrackersOf(k, contexts, ctx, subject);
      StillTasks(SentTasks(sent), p.w.tasks, numbers, Made(), next.w.tasks, Made());
    }

    method StartAmongOthers(k: Kind, contexts: C.ContextTree, ctx: nat, subject: Subject, result: seq<TimeWindowTask>,
                            ghost p: Pass)
      returns (r: Result<seq<TimeWindowTask>>, ghost p': Pass)
      requires Matches(p, contexts) && Reachable(p) && Collects(p, ctx)
      requires AreTasks(result, p.w.tasks, Pending(p), Made())
      modifies this`now, this`inProgress, Repr, contexts
      ensures Matches(p', contexts) && Leads(p, p')
      ensures r.Ok? ==> SameCall(p, p') && AreTasks(r.value, p'.w.tasks, p'.phase.result, Made())
      ensures r.Ok? && p.w.gens.Of(k).active != [] ==> Busy(p'.w, k, ctx)
      ensures r.Err? ==> FailedCall(p, p') && WasDone(p, p', k)
      ensures NewAsk(p, p', k, subject)
    {
      ghost var q := Others(contexts, p);
      ReachableOn(p, q);
      r, p' := StartKind(k, contexts, ctx, subject, result, q);
      LeadsJoin(p, q, p');
      if r.Err? {
        assert KeepsDone(q.w, k);
      }
    }

    /** One kind's share of getTasksToPush, if wanted: its Generate, between whose loops callbacks come in,
        adding to what the kinds before have started. Unless it fails the kind is then busy. */
    method KindToPush(k: Kind, wanted: bool, contexts: C.ContextTree, ctx: nat, subject: Subject,
                      result: seq<TimeWindowTask>, ghost asked: Subjects, ghost p: Pass)
      returns (r: Result<seq<TimeWindowTask>>, ghost p': Pass)
      requires Matches(p, contexts) && Reachable(p) && Collects(p, ctx)
      requires AreTasks(result, p.w.tasks, Pending(p), Made())
      requires wanted <==> asked.Wants(k)
      requires subject == asked.Of(k)
      modifies this`now, this`inProgress, this`Repr, Of(k), Repr, contexts
      ensures fresh(Repr - old(Repr))
      ensures Matches(p', contexts) && AllAsk(p, p', asked)
      ensures if wanted then KindIsDone(p, p', k, ctx, r.Ok?) else r == Ok(result) && p' == p
      ensures r.Ok? ==> p'.phase.Collecting? && AreTasks(r.value, p'.w.tasks, p'.phase.result, Made())
    {
      if !wanted {
        return Ok(result), p;
      }
      ghost var q := PrepareKind(k, contexts, p);
      ReachableOn(p, q);
      StillTasks(result, p.w.tasks, p.phase.result, old(Made()), q.w.tasks, Made());
      r, p' := StartAmongOthers(k, contexts, ctx, subject, result, q);
      KindAfterStart(p, q, p', k, ctx, r.Ok?);
    }

    /** The same in a call that has come from p to q; an error of the kinds before ends it. */
    method NextKindToPush(k: Kind, wanted: bool, contexts: C.ContextTree, ctx: nat, subject: Subject,
                          before: Result<seq<TimeWindowTask>>, ghost asked: Subjects, ghost p: Pass, ghost q: Pass)
      returns (r: Result<seq<TimeWindowTask>>, ghost p': Pass)
      requires Matches(q, contexts) && Reachable(p) && Collects(p, ctx)
      requires HasCollected(p, q, asked, Place(k), before, Made())
      requires wanted <==> asked.Wants(k)
      requires subject == asked.Of(k)
      modifies this`now, this`inProgress, this`Repr, Of(k), Repr, contexts
      ensures fresh(Repr - old(Repr)) && Matches(p', contexts)
      ensures HasCollected(p, p', asked, Place(k) + 1, r, Made())
    {
      if before.Err? {
        return before, q;
      }
      ReachableOn(p, q);
      LeadsSame(q);
      r, p' := KindToPush(k, wanted, contexts, ctx, subject, before.value, asked, q);
      LeadsJoin(p, q, p');
      AllAskJoin(p, q, p', asked);
      if r.Ok? {
        OneMoreBusy(p, q, p', asked, k, ctx);
      } else {
        MarkedLater(p, q, p');
      }
    }

    /** The kinds that ask for the monitored keys take part only if there are any. */
    method AuthorTasksToPush(contexts: C.ContextTree, ctx: nat, kinds: seq<int>, authors: seq<string>,
                             tags: seq<F.FilterTag>, ghost p: Pass)
      returns (r: Result<seq<TimeWindowTask>>, ghost p': Pass)
      requires Matches(p, contexts) && Reachable(p) && p.phase == Collecting(ctx, [])
      modifies this`now, this`inProgress, this`Repr, globalTask, authorTask, Repr, contexts
      ensures fresh(Repr - old(Repr)) && Matches(p', contexts)
      ensures HasCollected(p, p', Subjects(kinds, authors, tags), Place(Author) + 1, r, Made())
    {
      ghost var asked := Subjects(kinds, authors, tags);
      LeadsSame(p);
      r, p' := NextKindToPush(Global, true, contexts, ctx, Subject(kinds, [], []), Ok([]), asked, p, p);
      r, p' := NextKindToPush(Author, |authors| > 0, contexts, ctx, Subject([], authors, []), r, asked, p, p');
    }

    method AllTasksToPush(contexts: C.ContextTree, ctx: nat, kinds: seq<int>, authors: seq<string>,
                          tags: seq<F.FilterTag>, ghost p: Pass)
      returns (r: Result<seq<TimeWindowTask>>, ghost p': Pass)
      requires Matches(p, contexts) && Reachable(p) && p.phase == Collecting(ctx, [])
      modifies this`now, this`inProgress, this`Repr, globalTask, authorTask, tagTask, Repr, contexts
      ensures fresh(Repr - old(Repr)) && Matches(p', contexts)
      ensures HasCollected(p, p', Subjects(kinds, authors, tags), Place(Tag) + 1, r, Made())
    {
      ghost var asked := Subjects(kinds, authors, tags);
      r, p' := AuthorTasksToPush(contexts, ctx, kinds, authors, tags, p);
      r, p' := NextKindToPush(Tag, |tags| > 0, contexts, ctx, Subject([], [], tags), r, asked, p, p');
    }

    /** The attempts that all kinds start for a subscription, every kind that is wanted being busy then, or an
        error; then what the kinds before have started is dropped. */
    method GetTasksToPush(contexts: C.ContextTree, ctx: nat, kinds: seq<int>, authors: seq<string>,
                          tags: seq<F.FilterTag>, ghost p: Pass)
      returns (r: Result<seq<TimeWindowTask>>, ghost p': Pass)
      requires Matches(p, contexts) && Reachable(p) && p.phase.Idle? && ctx < |p.w.tree|
      modifies this`now, this`inProgress, this`Repr, globalTask, authorTask, tagTask, Repr, contexts
      ensures fresh(Repr - old(Repr))
      ensures Matches(p', contexts) && Leads(p, p')
      ensures r.Ok? ==> p'.phase.Pushing? && p'.phase.sub == ctx && p'.failures == p.failures
                        && AreTasks(r.value, p'.w.tasks, p'.phase.queue, Made())
                        && AllBusy(p, p', Subjects(kinds, authors, tags), ctx)
                        && ServesKinds(p, p', authors != [], tags != [], ctx)
      ensures r.Err? ==> FailedCall(p, p') && SomeMarked(p, p')
      ensures AllAsk(p, p', Subjects(kinds, authors, tags)) && AllQueries(p, p', kinds, authors, tags)
    {
      ghost var asked := Subjects(kinds, authors, tags);
      LeadsOne(p, Begin(ctx));
      ghost var q := Passes.Next(p, Begin(ctx));
      ReachableOn(p, q);
      r, p' := AllTasksToPush(contexts, ctx, kinds, authors, tags, q);
      LeadsJoin(p, q, p');
      if r.Ok? {
        ghost var collected := p';
        p' := Passes.Next(collected, Return);
        LeadsOne(collected, Return);
        LeadsJoin(p, collected, p');
        AllAreBusy(p, q, collected, p', asked, ctx);
        BusyMeans(p, p', asked, ctx);
      } else {
        MarkedLater(p, q, p');
      }
      AskedMeans(p, p', asked);
    }

    // -------------------------------------------------------------- pushing

    /** One round of the pushing loop: the attempt is sent, or the loop gives up because the subscription's
        context is done; when it is, either may happen. */
    method DeliverOne(sub: TaskSubscription, contexts: C.ContextTree, task: TimeWindowTask, ghost p: Pass)
      returns (ok: bool, ghost p': Pass)
      requires Matches(p, contexts) && Reachable(p) && Pushes(p, sub.ctx) && IsNextTask(p, task, Made())
      modifies this`sent, this`numbers
      ensures Matches(p', contexts) && Leads(p, p') && p'.failures == p.failures && p'.w == p.w
      ensures ok ==> p'.phase == Pushing(sub.ctx, p.phase.queue[1..]) && sent == old(sent) + [Sent(sub.ch, task)]
      ensures ok ==> GoesTo(Sent(sub.ch, task), sub, p'.w.tree)
      ensures !ok ==> p'.phase.Idle? && sent == old(sent) && !C.Live(contexts.nodes, sub.ctx)
    {
      if !C.Live(contexts.nodes, sub.ctx) {
        var noticed: bool := *;
        if noticed {
          LeadsOne(p, GiveUp);
          return false, Passes.Next(p, GiveUp);
        }
      }
      LeadsOne(p, Send);
      p' := Passes.Next(p, Send);
      SentOneMore(p, sent, numbers, Sent(sub.ch, task), Made());
      sent := sent + [Sent(sub.ch, task)];
      numbers := numbers + [p.phase.queue[0]];
      ok := true;
    }

    /** The same after any number of other things; `from` is where what was sent for the subscription starts. */
    method DeliverAmongOthers(sub: TaskSubscription, contexts: C.ContextTree, task: TimeWindowTask, ghost from: nat,
                              ghost p: Pass)
      returns (ok: bool, ghost p': Pass)
      requires Matches(p, contexts) && Reachable(p) && Pushes(p, sub.ctx) && IsNextTask(p, task, Made())
      requires AllGo(sent, from, [sub], p.w.tree)
      modifies this`now, this`inProgress, this`sent, this`numbers, Repr, contexts
      ensures Matches(p', contexts) && Leads(p, p') && p'.failures == p.failures && p'.w.tasks == p.w.tasks
      ensures ok ==> p'.phase == Pushing(sub.ctx, p.phase.queue[1..]) && sent == old(sent) + [Sent(sub.ch, task)]
      ensures !ok ==> p'.phase.Idle? && sent == old(sent) && !C.Live(contexts.nodes, sub.ctx)
      ensures AllGo(sent, from, [sub], p'.w.tree)
    {
      ghost var q := Others(contexts, p);
      ReachableOn(p, q);
      ok, p' := DeliverOne(sub, contexts, task, q);
      LeadsJoin(p, q, p');
      OneMoreGoes(old(sent), sent, from, sub, p, p');
    }

    /** Sends a call's attempts one after the other, until the subscription's context is found done. */
    method Deliver(sub: TaskSubscription, contexts: C.ContextTree, tasks: seq<TimeWindowTask>, ghost p: Pass)
      returns (r: Result<nat>, ghost p': Pass)
      requires Matches(p, contexts) && Reachable(p) && Pushes(p, sub.ctx)
      requires AreTasks(tasks, p.w.tasks, Pending(p), Made())
      modifies this`now, this`inProgress, this`sent, this`numbers, Repr, contexts
      ensures Matches(p', contexts) && Leads(p, p') && p'.phase.Idle? && p'.failures == p.failures
      ensures r.Ok? ==> r.value == |tasks| == |sent| - |old(sent)|
      ensures r.Err? ==> !C.Live(contexts.nodes, sub.ctx)
      ensures p'.w.tasks == p.w.tasks && AllGo(sent, |old(sent)|, [sub], p'.w.tree)
      ensures exists n: nat :: n <= |tasks| && sent == old(sent) + Through(sub.ch, tasks[..n])
    {
      p' := p;
      LeadsSame(p);
      assert Through(sub.ch, tasks[..0]) == [];
      for i := 0 to |tasks|
        invariant Matches(p', contexts) && Leads(p, p') && p'.phase == Pushing(sub.ctx, p.phase.queue[i..])
        invariant p'.w.tasks == p.w.tasks && p'.failures == p.failures
        invariant sent == old(sent) + Through(sub.ch, tasks[..i]) && AllGo(sent, |old(sent)|, [sub], p'.w.tree)
      {
        ghost var q := p';
        ReachableOn(p, q);
        OneMoreThrough(old(sent), sub.ch, tasks, i);
        var ok;
        ok, p' := DeliverAmongOthers(sub, contexts, tasks[i], |old(sent)|, q);
        LeadsJoin(p, q, p');
        if !ok {
          return Err, p';
        }
      }
      LeadsOne(p', End);
      LeadsJoin(p, p', Passes.Next(p', End));
      return Ok(|tasks|), Passes.Next(p', End);
    }

    /** Pushes attempts for one subscription. An error means that its context is done or that the call failed. */
    method PushTasks(sub: TaskSubscription, contexts: C.ContextTree, kinds: seq<int>, authors: seq<string>,
                     tags: seq<F.FilterTag>, ghost p: Pass)
      returns (r: Result<nat>, ghost p': Pass)
      requires Matches(p, contexts) && Reachable(p) && p.phase.Idle? && sub.ctx < |p.w.tree|
      modifies this`now, this`inProgress, this`sent, this`numbers, this`Repr, globalTask, authorTask, tagTask, Repr,
                 contexts
      ensures fresh(Repr - old(Repr))
      ensures Matches(p', contexts)
      ensures IsPushed(p, p', Subjects(kinds, authors, tags), sub.ctx, r.Ok?, !C.Live(contexts.nodes, sub.ctx))
      ensures old(sent) <= sent && AllGo(sent, |old(sent)|, [sub], p'.w.tree)
      ensures r.Ok? ==> r.value == |sent| - |old(sent)|
    {
      var tasks;
      tasks, p' := GetTasksToPush(contexts, sub.ctx, kinds, authors, tags, p);
      if tasks.Err? {
        return Err, p';
      }
      ghost var q := p';
      ReachableOn(p, q);
      r, p' := Deliver(sub, contexts, tasks.value, q);
      LeadsJoin(p, q, p');
      LeadsSame(p);
      AllBusyWithin(p, p, q, p', Subjects(kinds, authors, tags), sub.ctx);
    }

    /** PushTasks after any number of other things. */
    method PushAmongOthers(sub: TaskSubscription, contexts: C.ContextTree, kinds: seq<int>, authors: seq<string>,
                           tags: seq<F.FilterTag>, ghost p: Pass)
      returns (r: Result<nat>, ghost p': Pass)
      requires Matches(p, contexts) && Reachable(p) && p.phase.Idle? && sub.ctx < |p.w.tree|
      modifies this`now, this`inProgress, this`sent, this`numbers, this`Repr, globalTask, authorTask, tagTask, Repr,
                 contexts
      ensures fresh(Repr - old(Repr))
      ensures Matches(p', contexts)
      ensures IsPushed(p, p', Subjects(kinds, authors, tags), sub.ctx, r.Ok?, !C.Live(contexts.nodes, sub.ctx))
      ensures old(sent) <= sent && AllGo(sent, |old(sent)|, [sub], p'.w.tree)
      ensures r.Ok? ==> r.value == |sent| - |old(sent)|
    {
      ghost var q := Others(contexts, p);
      ReachableOn(p, q);
      LeadsIsLater(p, q);
      r, p' := PushTasks(sub, contexts, kinds, authors, tags, q);
      PushedLater(p, q, p', Subjects(kinds, authors, tags), sub.ctx, r.Ok?, !C.Live(contexts.nodes, sub.ctx));
    }

    /** One round of the loop over the subscriptions, in a pass that has come from p to q. */
    method PushNext(i: nat, contexts: C.ContextTree, authors: seq<string>, tags: seq<F.FilterTag>, ghost from: nat,
                    ghost p: Pass, ghost q: Pass)
      returns (r: Result<nat>, ghost p': Pass)
      requires Matches(q, contexts) && Reachable(p)
      requires i < |taskSubscriptions| && Allocated(taskSubscriptions, p.w.tree)
      requires HasServed(p, q, Subjects(GLOBAL_KINDS, authors, tags), taskSubscriptions, i)
      requires AllGo(sent, from, taskSubscriptions, q.w.tree)
      modifies this`now, this`inProgress, this`sent, this`numbers, this`Repr, globalTask, authorTask, tagTask, Repr,
                 contexts
      ensures fresh(Repr - old(Repr))
      ensures Matches(p', contexts) && old(sent) <= sent && AllGo(sent, from, taskSubscriptions, p'.w.tree)
      ensures r.Ok? ==> r.value == |sent| - |old(sent)|
      ensures var asked := Subjects(GLOBAL_KINDS, authors, tags);
              var subs := taskSubscriptions;
              if r.Ok? then HasServed(p, p', asked, subs, i + 1)
              else PassEnds(p, p', asked, subs, i, false, !C.Live(contexts.nodes, subs[i].ctx))
    {
      ghost var asked := Subjects(GLOBAL_KINDS, authors, tags);
      ReachableOn(p, q);
      LeadsIsLater(p, q);
      var sub := taskSubscriptions[i];
      assert sub in taskSubscriptions;
      r, p' := PushAmongOthers(sub, contexts, GLOBAL_KINDS, authors, tags, q);
      LeadsIsLater(q, p');
      OneMoreServed(old(sent), sent, from, taskSubscriptions, i, q.w.tree, p'.w.tree);
      OnePushed(p, q, p', asked, taskSubscriptions, i, r.Ok?, !C.Live(contexts.nodes, sub.ctx));
    }

    /** Serves one subscription after the other, all of them unless there is an error. */
    method PushToAll(contexts: C.ContextTree, authors: seq<string>, tags: seq<F.FilterTag>, ghost p: Pass)
      returns (r: Result<bool>, ghost served: nat, ghost p': Pass)
      requires Matches(p, contexts) && Reachable(p) && p.phase.Idle? && Allocated(taskSubscriptions, p.w.tree)
      modifies this`now, this`inProgress, this`sent, this`numbers, this`Repr, globalTask, authorTask, tagTask, Repr,
                 contexts
      ensures fresh(Repr - old(Repr))
      ensures Matches(p', contexts) && old(sent) <= sent && AllGo(sent, |old(sent)|, taskSubscriptions, p'.w.tree)
      ensures r.Ok? ==> (r.value <==> |sent| > |old(sent)|)
      ensures PassEnds(p, p', Subjects(GLOBAL_KINDS, authors, tags), taskSubscriptions, served, r.Ok?,
                       served < |taskSubscriptions| && !C.Live(contexts.nodes, taskSubscriptions[served].ctx))
    {
      p' := p;
      LeadsSame(p);
      var any := false;
      for i := 0 to |taskSubscriptions|
        invariant Matches(p', contexts) && old(sent) <= sent && (any <==> |sent| > |old(sent)|)
        invariant fresh(Repr - old(Repr))
        invariant AllGo(sent, |old(sent)|, taskSubscriptions, p'.w.tree)
        invariant HasServed(p, p', Subjects(GLOBAL_KINDS, authors, tags), taskSubscriptions, i)
      {
        var pushed;
        pushed, p' := PushNext(i, contexts, authors, tags, |old(sent)|, p, p');
        if pushed.Err? {
          return Err, i, p';
        }
        any := any || pushed.value > 0;
      }
      return Ok(any), |taskSubscriptions|, p';
    }

    /** slices.DeleteFunc (Go 1.21), whose result, the slice cut to the kept ones, is thrown away: the field
        keeps the whole slice. Contexts may end while the loop runs. */
    method DeleteDone(contexts: C.ContextTree, ghost p: Pass) returns (ghost live: seq<bool>, ghost p': Pass)
      requires Matches(p, contexts) && Allocated(taskSubscriptions, p.w.tree)
      modifies this`taskSubscriptions, this`now, this`inProgress, Repr, contexts
      ensures Matches(p', contexts) && SameAttempts(p, p')
      ensures |live| == |old(taskSubscriptions)| && taskSubscriptions == Compacted(old(taskSubscriptions), live)
      ensures AreReadings(live, old(taskSubscriptions), old(contexts.nodes), contexts.nodes)
    {
      var s;
      s, live, p' := MoveLiveOnes(contexts, p);
      taskSubscriptions := s;
    }

    /** The loop: every subscription found live is moved to the front. */
    method MoveLiveOnes(contexts: C.ContextTree, ghost p: Pass)
      returns (s: seq<TaskSubscription>, ghost live: seq<bool>, ghost p': Pass)
      requires Matches(p, contexts) && Allocated(taskSubscriptions, p.w.tree)
      modifies this`now, this`inProgress, Repr, contexts
      ensures Matches(p', contexts) && SameAttempts(p, p')
      ensures |live| == |taskSubscriptions| && s == Compacted(taskSubscriptions, live)
      ensures AreReadings(live, taskSubscriptions, p.w.tree, p'.w.tree)
    {
      s := taskSubscriptions;
      var kept: nat := 0;
      live, p' := [], p;
      LeadsSame(p);
      NoneLookedAt(s);
      for i := 0 to |taskSubscriptions|
        invariant |live| == i
        invariant CompactedUpTo(s, kept, taskSubscriptions, live)
        invariant AreReadings(live, taskSubscriptions, p.w.tree, p'.w.tree)
        invariant Matches(p', contexts) && SameAttempts(p, p')
      {
        s, kept, live, p' := LookAt(i, s, kept, live, contexts, p, p');
      }
      assert taskSubscriptions[..|live|] == taskSubscriptions;
    }

    /** One round: the next subscription goes to the front if its context is live when asked. */
    method LookAt(i: nat, slice: seq<TaskSubscription>, front: nat, ghost answers: seq<bool>, contexts: C.ContextTree,
                  ghost p: Pass, ghost q: Pass)
      returns (s: seq<TaskSubscription>, kept: nat, ghost live: seq<bool>, ghost p': Pass)
      requires Matches(q, contexts) && SameAttempts(p, q) && Allocated(taskSubscriptions, p.w.tree)
      requires CompactedUpTo(slice, front, taskSubscriptions, answers) && i == |answers| < |taskSubscriptions|
      requires AreReadings(answers, taskSubscriptions, p.w.tree, q.w.tree)
      modifies this`now, this`inProgress, Repr, contexts
      ensures Matches(p', contexts) && SameAttempts(p, p')
      ensures |live| == i + 1 && CompactedUpTo(s, kept, taskSubscriptions, live)
      ensures AreReadings(live, taskSubscriptions, p.w.tree, p'.w.tree)
    {
      CompactOne(slice, front, taskSubscriptions, answers);
      p' := Others(contexts, q);
      var alive := C.Live(contexts.nodes, slice[i].ctx);
      LeadsIsLater(p, q);
      LeadsIsLater(q, p');
      OneMoreReading(answers, alive, taskSubscriptions, p, q, p');
      SameJoin(p, q, p');
      live := answers + [alive];
      if alive {
        s, kept := slice[front := slice[i]], front + 1;
      } else {
        s, kept := slice, front;
      }
    }

    /** The pass over the subscriptions once the tags are made. */
    method DeleteAndPush(contexts: C.ContextTree, authors: seq<string>, tags: seq<F.FilterTag>, ghost p: Pass)
      returns (r: Result<bool>, ghost live: seq<bool>, ghost served: nat, ghost p': Pass)
      requires Matches(p, contexts) && Reachable(p) && p.phase.Idle? && Allocated(taskSubscriptions, p.w.tree)
      modifies this`now, this`inProgress, this`sent, this`numbers, this`taskSubscriptions, this`Repr
      modifies globalTask, authorTask, tagTask, Repr, contexts
      ensures fresh(Repr - old(Repr))
      ensures Matches(p', contexts) && old(sent) <= sent && AllGo(sent, |old(sent)|, old(taskSubscriptions), p'.w.tree)
      ensures |live| == |old(taskSubscriptions)| && taskSubscriptions == Compacted(old(taskSubscriptions), live)
      ensures AreReadings(live, old(taskSubscriptions), old(contexts.nodes), contexts.nodes)
      ensures r.Ok? ==> (r.value <==> |sent| > |old(sent)|)
      ensures PassEnds(p, p', Subjects(GLOBAL_KINDS, authors, tags), taskSubscriptions, served, r.Ok?,
                       served < |taskSubscriptions| && !C.Live(contexts.nodes, taskSubscriptions[served].ctx))
    {
      ghost var q;
      live, q := DeleteDone(contexts, p);
      ReachableOn(p, q);
      LeadsIsLater(p, q);
      CompactionKeepsLive(old(taskSubscriptions), live);
      r, served, p' := PushToAll(contexts, authors, tags, q);
      LeadsIsLater(q, p');
      ReadingsLater(live, old(taskSubscriptions), p.w.tree, q.w.tree, p'.w.tree);
      AllGoLater(sent, |old(sent)|, taskSubscriptions, old(taskSubscriptions), p'.w.tree, p'.w.tree);
      PassLater(p, q, p', Subjects(GLOBAL_KINDS, authors, tags), taskSubscriptions, served, r.Ok?,
                served < |taskSubscriptions| && !C.Live(contexts.nodes, taskSubscriptions[served].ctx));
    }

    /** One pass over the subscriptions, whatever happens meanwhile. They are served one after the other: every
        kind that is wanted is busy then. The pass ends early only for a call that failed or a subscription whose
        context is done. A live attempt that was not sent was dropped by a call that failed. */
    method SendOutTasks(contexts: C.ContextTree, keys: PublicKeys, ghost p: Pass)
      returns (r: Result<bool>, ghost live: seq<bool>, ghost served: nat, ghost p': Pass)
      requires Matches(p, contexts) && Reachable(p) && p.phase.Idle? && Allocated(taskSubscriptions, p.w.tree)
      modifies this`now, this`inProgress, this`sent, this`numbers, this`taskSubscriptions, this`Repr
      modifies globalTask, authorTask, tagTask, Repr, contexts
      ensures fresh(Repr - old(Repr))
      ensures Matches(p', contexts) && Leads(p, p') && p'.phase.Idle? && old(sent) <= sent
      ensures UnsentAreDropped(p', numbers)
      ensures "" !in keys.tagged ==>
                && |live| == |old(taskSubscriptions)| && taskSubscriptions == Compacted(old(taskSubscriptions), live)
                && AreReadings(live, old(taskSubscriptions), old(contexts.nodes), contexts.nodes)
      ensures KeysServedUpTo(p, p', keys, taskSubscriptions, served)
      ensures r.Ok? ==>
                && "" !in keys.tagged && served == |taskSubscriptions|
                && (r.value <==> |sent| > |old(sent)|) && p'.failures == p.failures
      ensures r.Err? ==>
                || "" in keys.tagged
                || (served < |taskSubscriptions| &&
                    (CallFailed(p, p') || !C.Live(contexts.nodes, taskSubscriptions[served].ctx)))
      ensures AllGo(sent, |old(sent)|, old(taskSubscriptions), p'.w.tree)
      ensures AllAskFor(p, p', keys)
    {
      var tags := ProfileTags(keys.tagged);
      if tags.Err? {
        LeadsSame(p);
        AllSentOrDropped(p, numbers);
        return Err, [], 0, p;
      }
      r, live, served, p' := DeleteAndPush(contexts, keys.authors, tags.value, p);
      ReachableOn(p, p');
      AllSentOrDropped(p', numbers);
      KeysAskedFor(p, p', keys);
      KeysServed(p, p', keys, taskSubscriptions, served);
    }
  }
}
